# Asteroids ship-program interpreter in Dafny

This project models the interpreter that runs a ship's program in the
Asteroids game (package `asteroids.program`). A program is a main statement
plus named functions. Each simulation tick calls `Program.execute(dt)`:

- the call adds `dt` to the program's fuel;
- it then evaluates the main statement;
- every action (turn, fire, thrust on, thrust off, skip) costs 0.2 of fuel;
- when an action finds too little fuel, it records its source location as the resume anchor, clears the may-execute flag and suspends the run;
- the next call walks the statement tree again in skip mode until it reaches that anchor, then goes on normally.

Expressions cover:

- number literals, global and local variables, and `$n` parameters;
- `+`, `*`, unary minus, `sqrt`, `<`, `==` and `!`;
- function calls;
- entity queries (`self`, `ship`, `asteroid`, `planetoid`, `planet`, `bullet`, `any`, `null`), their position, velocity and radius fields, and the ship's direction.

The project has two levels:

- **Functional semantics.** Files `expressions.dfy` and `statements.dfy` give the reference semantics as functions from a `State` value to a result and a new `State`. Java's control exceptions become a `Signal`:
  - `IllegalPathStateException` is `SuspendSignal`;
  - `IllegalAccessError` is `BreakSignal`;
  - every other exception is `Thrown(e)`.
- **Imperative class.** `program.dfy` has a `Program` class with the fields of `Program.java`. Its methods update the fields in place, looping over sequences, while statements and argument lists as the Java code does. Each method is proved to leave exactly the result and the state that the functional semantics prescribes.

The local-variable map of every `MyFunction` and the `broken` flag of every `WhileStatement` are held by the program as well:

- the local maps are keyed by function name;
- a while statement is identified by an `id` it carries. Each `WhileStatement` object owns its own flag, so the model is faithful for programs whose loops carry pairwise distinct ids, as the parser builds them; two loops sharing an id would share one flag.

The world is an oracle (`Surroundings`). It supplies the ship's current world, the class of each entity, each bullet's source, distances, positions, velocities and radii. A ship effect is recorded as an event appended to a log.

Some behaviours of the code are easy to miss; the model follows the code:

- A `while` statement is never a valid function body. It does not override `containsStatement`, so it never "contains" a return (`FunctionInvocationExpression.java:68-72`, `MyStatement.java:30-32`).
- A function call yields the value of the first statement in its body that is neither an assignment nor a while; there is no separate return signal.
- A body that finishes without reaching a return yields null; it does not fail.
- The callee's local map is saved before the arguments are evaluated (`FunctionInvocationExpression.java:33-34`).
- The map is put back only when the body returns normally. A break or an error escaping the body leaves the callee with the map its body built from a fresh one (`Properties.RaisingCallKeepsBodyLocals`; `Properties.BreakingCallKeepsResetLocals` is an example).
- This holds even when the break is caught further up. If it is caught by a loop of the calling function, the outer call returns normally but the inner callee keeps the map its body left (the example `Properties.CaughtBreakKeepsResetLocals`). Only for call-free functions does every map come back as before (`Properties.CallOfCallFreeFunction`).
- A field read (`getx e` and the like) evaluates its operand with the program only, without the arguments or the function. Inside a function, `getx e` on a local `e` therefore reads the global `e`, and fails with IllegalArgumentException when there is none (`OnEntityExpression.java:25-27`, `Properties.FieldReadOfLocalReadsGlobal`).
- Skip mode does not always skip. Once the may-execute flag is set, a sequence evaluates its children normally. A call that follows a run that completed after an action therefore evaluates the whole main statement again (`Properties.ThirdCallStartsOver`).

## Model

| member | source | states |
|---|---|---|
| Values.CastDouble | src/asteroids/program/TurnAction.java:39 | `(double)` of a result succeeds exactly on numbers. Null fails with a NullPointerException and any other value with a ClassCastException. |
| Values.CastBoolean | src/asteroids/program/IfElseStatement.java:76 | `(boolean)` of a condition succeeds exactly on booleans, with their truth value. Null and other values fail as for the double cast. |
| Values.CastEntity | src/asteroids/program/OnEntityExpression.java:25-27 | `(Entity)` of an operand value succeeds exactly on entities. |
| Syntax.ContainsAnyIff | src/asteroids/program/SequenceStatement.java:38-46 | A sequence contains a statement of a class iff one of its children does. |
| Syntax.SequenceContainsStatement | src/asteroids/program/SequenceStatement.java:38-46 | The flag loop over all children returns true iff some child contains the class, and agrees with `ContainsStatement` of the sequence. |
| Syntax.ContainsStatement | src/asteroids/program/MyStatement.java:30-32 | A definition with no ensures. By default a statement compares only its own class name, and a while does not override this. A sequence asks its children (SequenceStatement.java:38-46). An if/else asks its if body and, when present, its else body, and nothing else (IfElseStatement.java:57-67). |
| Syntax.ContainsAny | src/asteroids/program/SequenceStatement.java:38-46 | A definition with no ensures: some child of the sequence contains the class. `ContainsAnyIff` states it as an existential. |
| Syntax.IsValidFunctionBody | src/asteroids/program/FunctionInvocationExpression.java:68-72 | A body is valid iff it contains a return and is a return, sequence or if/else. A return is always valid. A while is never valid, since its `containsStatement` only compares its own class name. |
| Queries.OfCategory | src/asteroids/program/EntityExpression.java:41-43 | The candidates of a category are exactly the world's entities whose class or superclass has that name. |
| Queries.ClosestIndex | src/asteroids/program/EntityExpression.java:16-31 | The chosen candidate is at minimal distance, and no earlier candidate is at that distance (the first of the minimal group). |
| Queries.ClosestEntity | src/asteroids/program/EntityExpression.java:16-31 | The result is null iff there are no candidates. Otherwise it is a candidate no farther than any other. |
| Queries.AnyOf | src/asteroids/program/BulletEntity.java:27 | `findAny().orElse(null)` gives null iff the set is empty, and otherwise one of its elements. |
| Queries.OtherShips | src/asteroids/program/ShipEntity.java:23-26 | The candidates are exactly the world's ships other than the program's own ship. |
| Queries.OwnBullets | src/asteroids/program/BulletEntity.java:23-25 | The candidates are exactly the world's bullets whose source is the program's ship. |
| Queries.QueryValue | src/asteroids/program/EntityExpression.java:33-43 | `self` is the program's ship and `null` is null. Every other query fails with a NullPointerException when the ship has no world. The values in a world are stated by the query lemmas below. |
| Queries.FieldValue | src/asteroids/program/XPositionExpression.java:17-21 | A definition with no ensures. The x and y position, x and y velocity and radius getters of an entity are read from the world oracle (RadiusExpression.java:17-21 and the other field expressions). |
| Queries.ShipQueryNearestOther | src/asteroids/program/ShipEntity.java:20-29 | `ship` is null iff there is no other ship. Otherwise it is a ship other than the program's own, nearest among the other ships. |
| Queries.BulletQueryOwnBullet | src/asteroids/program/BulletEntity.java:20-28 | `bullet` is null iff no bullet was fired by the ship. Otherwise it is a bullet of the world fired by the ship. |
| Queries.AsteroidQueryNearest | src/asteroids/program/AsteroidEntity.java:16-20 | `asteroid` is null iff the world has no asteroid. Otherwise it is an asteroid of the world, nearest among the asteroids. |
| Queries.PlanetoidQueryNearest | src/asteroids/program/PlanetoidEntity.java:16-20 | `planetoid` is null iff the world has no planetoid. Otherwise it is a planetoid of the world, nearest among the planetoids. |
| Queries.PlanetQueryNearestMinorPlanet | src/asteroids/program/PlanetEntity.java:16-20 | `planet` reads the MinorPlanet category. It is null iff the world has no asteroid or planetoid, and otherwise the nearest of them. |
| Queries.AnyQueryAnyEntity | src/asteroids/program/AnyEntity.java:19-25 | `any` is null iff the world is empty. Otherwise it is an entity of the world, possibly the program's own ship. |
| Parameters.ParseInt | src/asteroids/program/ParameterExpression.java:23-27 | `Integer.parseInt` yields a 32-bit value or fails with a NumberFormatException. The empty string fails. |
| Parameters.ParameterNumber | src/asteroids/program/ParameterExpression.java:23-27 | The parameter number is the name after its first character, parsed. `substring(1)` of an empty name is out of bounds. |
| Parameters.ArgumentValue | src/asteroids/program/ParameterExpression.java:17-21 | `$n` reads argument n-1 exactly when the number parses, an argument list exists and `1 <= n <= size`. A missing list gives a NullPointerException. |
| Parameters.ParameterNumberRoundTrip | src/asteroids/program/ParameterExpression.java:23-27 | The name `"$" + n` reads back as n for every n in the int range. |
| Parameters.ParameterReadsArgument | src/asteroids/program/ParameterExpression.java:17-21 | `$n` with 1 <= n <= size reads the n-th actual argument. |
| ProgramState.InitialState | src/asteroids/program/Program.java:25-29 | A new program has fuel 0, no anchor, may-execute false, no globals and no prints. Every function's local map is empty (MyFunction.java:73). |
| ProgramState.SetLocals | src/asteroids/program/MyFunction.java:41-43 | The given map becomes the function's current map. Other functions' maps and the rest of the state are unchanged. |
| ProgramState.LocalsOf | src/asteroids/program/MyFunction.java:22-24 | A definition with no ensures: the current local map of the named function. A function whose map was never replaced has its initial empty map. |
| ProgramState.ResetLocals | src/asteroids/program/MyFunction.java:63-65 | The function gets an empty map. Nothing else changes. |
| ProgramState.AddLocal | src/asteroids/program/MyFunction.java:56-58 | The local is bound, overwriting an earlier binding. Other locals, other functions and the rest of the state are unchanged. |
| ProgramState.AddVariable | src/asteroids/program/Program.java:107-109 | The global is bound to the value. Every other global keeps its presence and value, and nothing else changes. |
| ProgramState.AddPrintOut | src/asteroids/program/Program.java:99-101 | The log grows by exactly one entry, the value, and keeps its old prefix. Nothing else changes. |
| Expressions.ParameterValue | src/asteroids/program/ParameterExpression.java:17-21 | A parameter evaluates to its argument's number, or fails exactly as the argument lookup does. |
| Expressions.ParameterSlot | src/asteroids/program/MyExpression.java:28-56 | Only a parameter operand fills its slot, with its argument's value. An index out of bounds is rethrown as a RuntimeErrorException. |
| Expressions.BinarySlots | src/asteroids/program/MyExpression.java:39-52 | Both slots are computed, left first, and either failure fails the pair. |
| Expressions.LookupVariable | src/asteroids/program/VariableExpression.java:17-32 | A non-null local of the current function comes first. At top level, and inside a function when the local is missing or null, the lookup succeeds iff the global is bound to non-null, and yields it. Otherwise it fails with IllegalArgumentException, and a result is never null. |
| Expressions.ApplyArith | src/asteroids/program/AdditionExpression.java:17-27 | `+` is the sum, `*` the product (MultiplicationExpression.java:26), and `<` the strict comparison (LessThanExpression.java:26). |
| Expressions.EvalExpr | src/asteroids/program/MyExpression.java:74-82 | An expression changes at most function locals and loop flags, and never suspends. Without a call, it changes nothing and never breaks. |
| Expressions.CanHaveAsArithmeticOperand | src/asteroids/program/ArithmeticExpression.java:9-15 | A parameter is accepted unevaluated. Any other operand is accepted iff its evaluation yields a number, and fails iff that evaluation fails. |
| Expressions.SolveOperand | src/asteroids/program/BinaryExpression.java:56-85 | A filled parameter slot is used directly, without evaluation. Otherwise the operand only touches locals and loop flags. |
| Expressions.ArgumentNumber | src/asteroids/program/FunctionInvocationExpression.java:83-90 | A literal argument is kept. Any other argument succeeds iff it evaluates to a number, which it becomes. Null fails with a NullPointerException. |
| Expressions.UpdateArgs | src/asteroids/program/FunctionInvocationExpression.java:77-94 | The new argument list has the length of the actual list, and literals keep their values. The value at every position is stated by `Properties.UpdateArgsCallFree`. |
| Expressions.CallFunction | src/asteroids/program/FunctionInvocationExpression.java:29-48 | An unknown function fails with IllegalArgumentException and changes nothing. An invalid body fails. A normal return leaves the callee's local map as it was before the call. The call's value is stated by `Properties.CallEvaluatesBody`. |
| Expressions.AssignLocal | src/asteroids/program/AssignmentStatement.java:53-57 | Success binds the local to the value the expression yields in the function's scope, with no name or type check. |
| Expressions.EvalInFunction | src/asteroids/program/MyStatement.java:43-45 | Assignments, whiles, prints and actions reached through the default fail with IllegalArgumentException. A break raises the break signal (BreakStatement.java:20-22). A return yields its expression's value in the function's scope (ReturnStatement.java:40-45). |
| Expressions.BranchInFunction | src/asteroids/program/IfElseStatement.java:83-103 | An assignment branch yields null. Any other branch yields its own function-mode value. |
| Expressions.EvalSequenceInFunction | src/asteroids/program/SequenceStatement.java:58-72 | An empty sequence yields null. A sequence whose first statement is neither an assignment nor a while yields that statement's value, so the rest never runs. A sequence of only assignments and whiles yields null when it completes. |
| Expressions.EvalWhileInFunction | src/asteroids/program/WhileStatement.java:77-92 | A false condition or a broken loop ends normally right after the condition. With a call-free condition and a non-assignment body, a break never leaves the loop. |
| Statements.EvalAction | src/asteroids/program/ActionStatement.java:35-51 | Below 0.2 of fuel, only the anchor and may-execute change, and the action suspends. Otherwise may-execute is set and exactly 0.2 is paid. A turn leaves an orientation in [0, 2π) and logs the angle (TurnAction.java:37-43). Fire and thrust log their effect. A failing action leaves the ship unchanged. |
| Statements.EvalStmt | src/asteroids/program/MyStatement.java:37-41 | Fuel never rises, and once spent it stays non-negative. Each ship effect was paid with 0.2. Prints and effects only grow, and flags are only set. A suspension anchors at an action of the statement with less than 0.2 left. |
| Statements.EvalSeq | src/asteroids/program/SequenceStatement.java:51-56 | The same accounting and anchoring over the children. |
| Statements.EvalWhile | src/asteroids/program/WhileStatement.java:63-75 | The same accounting and anchoring. A loop with a call-free condition never passes a break on. |
| Statements.SkipStmt | src/asteroids/program/MyStatement.java:47-50 | Skip mode has the same accounting and anchoring. |
| Statements.SkipSeq | src/asteroids/program/SequenceStatement.java:74-83 | The same accounting and anchoring over the children, in skip mode. |
| Statements.SkipWhile | src/asteroids/program/WhileStatement.java:94-103 | The same accounting and anchoring for the loop, in skip mode. |
| Statements.Outcome | src/asteroids/program/Program.java:120-134 | A completed run returns the print log and a suspension returns null. A break escapes as an IllegalAccessError, and any other exception escapes as itself. |
| Statements.Executed | src/asteroids/program/Program.java:114-136 | The returned log is the whole log and extends the log before the call. The accounting holds from the topped-up fuel, and a suspension anchors at an action of the main statement. |
| ProgramClass.FunctionTable | src/asteroids/program/Program.java:69-74 | The table's keys are exactly the names of the listed functions. |
| ProgramClass.FunctionTableLastWins | src/asteroids/program/Program.java:69-74 | A name listed more than once maps to its last body. |
| ProgramClass.Program.constructor | src/asteroids/program/Program.java:16-29 | The program's function table is built from the list by the `setFunctions` loop. The initial state is fresh and `first_time` is set. |
| ProgramClass.Program.AddTime | src/asteroids/program/Program.java:103-105 | Fuel rises by dt, with no check. Nothing else changes. |
| ProgramClass.Program.AddVariable | src/asteroids/program/Program.java:107-109 | The new state is `AddVariable` of the old one. |
| ProgramClass.Program.AddPrintOut | src/asteroids/program/Program.java:99-101 | The new state is `AddPrintOut` of the old one. |
| ProgramClass.Program.SetMayExecute | src/asteroids/program/Program.java:80-82 | Only the flag changes, to true. |
| ProgramClass.Program.SetMayNotExecute | src/asteroids/program/Program.java:84-86 | Only the flag changes, to false. |
| ProgramClass.Program.SetLocalVariables | src/asteroids/program/MyFunction.java:41-43 | The new state is `SetLocals` of the old one. |
| ProgramClass.Program.ResetLocalVariables | src/asteroids/program/MyFunction.java:63-65 | The new state is `ResetLocals` of the old one. |
| ProgramClass.Program.AddLocalVariable | src/asteroids/program/MyFunction.java:56-58 | The new state is `AddLocal` of the old one. |
| ProgramClass.Program.EvaluateArgument | src/asteroids/program/FunctionInvocationExpression.java:84-90 | Result and state are those of `ArgumentNumber`. |
| ProgramClass.Program.UpdateArguments | src/asteroids/program/FunctionInvocationExpression.java:77-94 | The loop over the copied arguments gives the result and state of `UpdateArgs`. |
| ProgramClass.Program.InvokeFunction | src/asteroids/program/FunctionInvocationExpression.java:29-41 | Saving, resetting and restoring the callee's map in place gives the result and state of `CallFunction`. |
| ProgramClass.Program.EvaluateExpression | src/asteroids/program/MyExpression.java:74-82 | Only locals and loop flags are adopted from the evaluation, giving the result and state of `EvalExpr`. |
| ProgramClass.Program.EvaluateAction | src/asteroids/program/ActionStatement.java:35-51 | Paying, acting or suspending in place gives the result and state of `EvalAction`. |
| ProgramClass.Program.Evaluate | src/asteroids/program/MyStatement.java:37-41 | Result and new state are those of `EvalStmt`. |
| ProgramClass.Program.EvaluateSequence | src/asteroids/program/SequenceStatement.java:51-56 | The loop over the children gives the result and state of `EvalSeq`. |
| ProgramClass.Program.EvaluateWhile | src/asteroids/program/WhileStatement.java:63-75 | The loop gives the result and state of `EvalWhile`. |
| ProgramClass.Program.SkipEvaluationUntilLocation | src/asteroids/program/ActionStatement.java:53-59 | Result and state are those of `SkipStmt`. An action runs only when it is the anchor. |
| ProgramClass.Program.SkipSequence | src/asteroids/program/SequenceStatement.java:74-83 | The loop that consults may-execute for every child gives the result and state of `SkipSeq`. |
| ProgramClass.Program.SkipWhile | src/asteroids/program/WhileStatement.java:94-103 | The loop gives the result and state of `SkipWhile`. |
| ProgramClass.Program.Execute | src/asteroids/program/Program.java:114-136 | The call gives the result and state of `Executed`, and `first_time` is false afterwards. A returned log extends the old one and is the program's log. A suspension anchors inside the main statement with may-execute cleared. |
| Factory.CreateWhile | src/asteroids/program/ProgramFactory.java:33-41 | A while is built iff the condition is `<`, `==` or `!`. Otherwise construction fails with IllegalArgumentException. |
| Factory.CreateIf | src/asteroids/program/ProgramFactory.java:53-63 | An if is built iff the condition is a boolean expression. Otherwise construction fails with IllegalArgumentException. |
| Factory.CreateUnary | src/asteroids/program/ProgramFactory.java:93-101 | Unary minus and `sqrt` (lines 235-242) are built iff the operand is arithmetic. The result is arithmetic and keeps well-formedness. |
| Factory.CreateBinary | src/asteroids/program/ProgramFactory.java:203-233 | `+`, `*` and `<` are built iff both operands are arithmetic. `<` is boolean and the others are arithmetic. |
| Factory.CreateNot | src/asteroids/program/ProgramFactory.java:103-111 | `!` is built iff its operand is boolean. |
| Factory.CreateEquality | src/asteroids/program/ProgramFactory.java:212-215 | `==` accepts any two operands and is boolean. |
| Factory.CreateFieldRead | src/asteroids/program/OnEntityExpression.java:32-46 | A field read is built iff the operand is an entity query other than `null`, or a variable (ProgramFactory.java:158-201). |
| Factory.IsEntityOperand | src/asteroids/program/OnEntityExpression.java:43-46 | A definition with no ensures. A field-read operand is an entity expression other than `null`, or a variable. |
| Factory.BooleanYieldsBool | src/asteroids/program/ProgramFactory.java:33-63 | A condition of a boolean class that evaluates never yields a non-boolean, so the `(boolean)` cast cannot fail. |
| Properties.SolvePlainNumber | src/asteroids/program/BinaryExpression.java:78-80 | A numeric non-parameter operand without calls is checked, then read, and changes nothing. |
| Properties.SolvePlainNonNumber | src/asteroids/program/BinaryExpression.java:78-83 | A non-numeric operand fails the check with IllegalArgumentException. |
| Properties.ArithOnNumbers | src/asteroids/program/AdditionExpression.java:17-27 | On numeric operands, `+`, `*` and `<` give the sum, the product and the strict comparison, and change nothing. |
| Properties.ArithLeftNonNumber | src/asteroids/program/BinaryExpression.java:72-84 | A non-numeric left operand fails the operator with IllegalArgumentException. |
| Properties.ArithParameterOperands | src/asteroids/program/BinaryExpression.java:58-63 | Parameter operands of `+`, `*` and `<` are the corresponding actual arguments. |
| Properties.ParameterAtTopLevel | src/asteroids/program/ParameterExpression.java:17-21 | Reading `$n` with no argument list fails with a NullPointerException. |
| Properties.UnaryOnNumber | src/asteroids/program/SquareRootExpression.java:16-27 | `sqrt` of a non-negative number (zero included) is its root, and of a negative one fails with IllegalArgumentException. Unary minus negates (NegationExpression.java:16-24). |
| Properties.NotOfValue | src/asteroids/program/LogicalNegationExpression.java:17-22 | `!` of a boolean is its negation. A null operand fails with NullPointerException and any other value with ClassCastException, as the `(Boolean)` cast does. A call-free operand leaves the state unchanged. |
| Properties.FieldReadIgnoresScope | src/asteroids/program/OnEntityExpression.java:25-27 | In any scope, a field read evaluates its operand as at the top level. An entity gives its field, null fails with NullPointerException and any other value with ClassCastException. |
| Properties.FieldReadOfLocalReadsGlobal | src/asteroids/program/VariableExpression.java:17-31 | Inside a function, a local holding an entity is visible to a plain variable read. A field read of it still fails with IllegalArgumentException when no global of that name exists. |
| Properties.EqualityOfValues | src/asteroids/program/EqualsToExpression.java:16-42 | `==` is value equality. A null left operand fails, and a null right operand gives false. |
| Properties.AssignmentOfValue | src/asteroids/program/AssignmentStatement.java:63-71 | A numeric value binds the global and changes nothing else. A non-number fails with IllegalArgumentException and changes nothing. |
| Properties.AssignmentToFunctionName | src/asteroids/program/AssignmentStatement.java:45-48 | Assigning to a function's name fails with IllegalArgumentException. |
| Properties.PrintAppendsValue | src/asteroids/program/PrintStatement.java:28-40 | A print appends exactly its value to the log. |
| Properties.TopLevelErrorPaths | src/asteroids/program/ReturnStatement.java:35-38 | At the top level, `return` fails with IllegalArgumentException, `print` of a parameter fails the same way (PrintStatement.java:32-33), and `break` raises the break signal (BreakStatement.java:16-18). None of them changes the state. |
| Properties.LoopEndsWithoutBody | src/asteroids/program/WhileStatement.java:64-75 | A false condition or a broken loop ends at once without running the body, in both modes. |
| Properties.BreakCaughtByLoop | src/asteroids/program/WhileStatement.java:67-73 | A break raised anywhere in the body is caught. It sets the loop's flag, and the loop completes normally at its next test, with the body's state. |
| Properties.IfElseSelectsBranch | src/asteroids/program/IfElseStatement.java:72-113 | With a call-free condition, an if/else runs exactly the selected branch, in normal and in skip mode. A false condition without an else does nothing. |
| Properties.SkipMissesAnchorInOtherBranch | src/asteroids/program/IfElseStatement.java:105-113 | The resume walk searches only the branch the condition now selects. An anchor in the other branch is not reached: the walk does not suspend and changes only locals and loop flags. |
| Properties.WhileInFunctionCatchesBreak | src/asteroids/program/WhileStatement.java:77-92 | In a function, a break from a non-assignment body is caught. It sets the loop's flag, and the loop ends normally at its next test. |
| Properties.WhileInFunctionAssignBody | src/asteroids/program/WhileStatement.java:80-81 | In a function, an assignment body writes the local and the loop tests again. A signal from the assignment, a break included, leaves the loop. |
| Properties.SkipWithoutAnchor | src/asteroids/program/MyStatement.java:47-50 | Skip mode over a statement without the anchor runs no assignment, print or action. Only locals and loop flags change, and it never suspends. |
| Properties.SkipSeqWithoutAnchor | src/asteroids/program/SequenceStatement.java:74-83 | The same holds for a sequence. |
| Properties.SkipWhileWithoutAnchor | src/asteroids/program/WhileStatement.java:94-103 | The same holds for a loop. |
| Properties.SkipSeqOnceExecuting | src/asteroids/program/SequenceStatement.java:77-82 | With may-execute set, the skip-mode sequence is exactly normal evaluation. |
| Properties.TurnByAngle | src/asteroids/program/TurnAction.java:37-43 | A paid turn rotates by exactly the angle when the result lies in [0, 2π). Otherwise it fails with IllegalArgumentException after paying, with the ship unchanged. |
| Properties.CallRestoresLocals | src/asteroids/program/FunctionInvocationExpression.java:29-41 | In this example, a call of `return $1 + 1.0` on 2 yields 3, and every function's local map is as before the call. |
| Properties.UpdateArgsCallFree | src/asteroids/program/FunctionInvocationExpression.java:77-94 | With call-free arguments, `updateArgs` changes nothing and succeeds iff every argument yields a number. Each position then holds its argument's number, and a literal keeps its value. |
| Properties.CallEvaluatesBody | src/asteroids/program/FunctionInvocationExpression.java:29-41 | The arguments are evaluated in the caller's scope, and a failure there is the call's failure. The body then runs in function mode on those numbers, from a fresh map for the callee. A normal result is the call's value, and the callee's old map is put back. |
| Properties.RaisingCallKeepsBodyLocals | src/asteroids/program/FunctionInvocationExpression.java:33-38 | For any body that raises a break or an exception, the call fails with that signal and the callee keeps the map its body left behind. The map saved before the call is not put back. |
| Properties.InFunctionKeepsOtherLocals | src/asteroids/program/MyStatement.java:43-45 | A call-free statement run in a function body changes no local map but that function's own. |
| Properties.BranchInFunctionKeepsOtherLocals | src/asteroids/program/IfElseStatement.java:83-103 | The same holds for an if/else branch. |
| Properties.SequenceInFunctionKeepsOtherLocals | src/asteroids/program/SequenceStatement.java:58-72 | The same holds for a sequence. |
| Properties.WhileInFunctionKeepsOtherLocals | src/asteroids/program/WhileStatement.java:77-92 | The same holds for a loop. |
| Properties.CallOfCallFreeFunction | src/asteroids/program/FunctionInvocationExpression.java:29-41 | A call of a function whose body and arguments contain no call changes no other function's map. When it returns normally, every local map is as before. |
| Properties.BreakingCallKeepsResetLocals | src/asteroids/program/FunctionInvocationExpression.java:33-38 | In this example, `brk` = `break; return 0`: calling it escapes with the break, and `brk` is left with a fresh empty map instead of its earlier one. |
| Properties.CaughtBreakKeepsResetLocals | src/asteroids/program/FunctionInvocationExpression.java:33-38 | In this example, `catch` = `while 0 < 1 { return brk(); } return 1` with `brk` as above: the loop catches `brk`'s break and `catch` returns 1 normally, but `brk` is still left with a fresh empty map (WhileStatement.java:83-87). |
| Properties.FirstCallSuspends | src/asteroids/program/Program.java:114-126 | `print 1; fire; print 2` with 0.1 of fuel prints 1, suspends, and anchors at the fire action. |
| Properties.SecondCallResumes | src/asteroids/program/Program.java:127-135 | The next call with 0.2 skips the first print, fires, and prints 2. The log is `[1, 2]` and 0.1 is left. |
| Properties.ThirdCallStartsOver | src/asteroids/program/SequenceStatement.java:77-82 | A further call without fuel re-runs the sequence from the start, because may-execute is still set. It prints 1 again and suspends at the same anchor. |

## Left out

- Physics and geometry of ships, bullets, planets and worlds are not part of this model. Distances, positions, velocities, radii, entity classes and bullet sources are oracle functions of `Surroundings`, and the world does not change during a run.
- Firing and thrusting only append an event to the ship's effect log. Their physical effects (new bullets, acceleration) are not modelled.
- Turning is modelled as the orientation check of `Ship.turn`, assuming Java assertions are enabled. The turn's effect on the rest of the ship is not modelled.
- `Math.sqrt` is an oracle function of the environment.
- Numbers are mathematical reals, not IEEE doubles: no rounding, NaN, infinities or signed zero. The fuel arithmetic 0.1 + 0.2 is exact here.
- Every evaluation carries a `steps` bound on while iterations and function calls, so that it terminates. Running out gives `Thrown(OutOfSteps)`, which the Java code does not have. A Java run that does not terminate has no counterpart.
- `System.out.println` in `PrintStatement` is left out. The print log is the observable output.
- `execute` in Java returns the program's own list object, so later prints also show up in earlier results. The model returns the log's value at the time of the call.
- The facade, GUI, command line and parser are not part of this model. Neither is the parser's construction of source locations; locations are compared by value.
- The `program` back-pointers set by `setStatementProgram`, `setExpressionProgram` and `setFunctionProgram` are replaced by passing the state and environment explicitly.
- Attaching a ship after construction (`setProgramShip`) is folded into construction. A program without a ship is not modelled.
- The unused `EqualsToExpression.assignExpressionToParameter` and `canHaveAsNbOperands` are not modelled.
- The function-mode evaluation and expression evaluation are functions on values. Only top-level statement evaluation, argument updating and calls are methods on the `Program` object.
- Program.constructor, AddTime, AddVariable, AddPrintOut, SetMayExecute, SetMayNotExecute, SetLocalVariables, ResetLocalVariables, AddLocalVariable and the other `Program` methods state their effect through `old`. Their properties are proved about the functions they equal.
- `Integer.parseInt` is modelled for ASCII digits only. Java also accepts other Unicode decimal digits.
