/** Run-time values of the ship-program language, the Java exceptions the
    interpreter raises, and the control signals that unwind an evaluation. */
module Values {

  datatype Option<+T> = None | Some(value: T)

  /** Identity of an entity (ship, bullet, asteroid, planetoid) in the simulation. */
  type EntityId = nat

  /** A Java `Object` produced by an expression: a `Double`, a `Boolean`, an
      `Entity` reference, or `null` (the null entity, or a function call that
      produced no value). */
  datatype Value = Num(num: real) | Bool(truth: bool) | Ent(entity: EntityId) | Null

  /** The source location an action statement carries (its resume anchor). */
  datatype Location = Location(line: int, column: int)

  /** The Java exception classes the interpreter lets escape. */
  datatype Error =
    | IllegalArgument     // IllegalArgumentException
    | ClassCast           // ClassCastException (a failed `(Double)`, `(Boolean)`, `(Entity)` cast)
    | NullPointer         // NullPointerException (unboxing or dereferencing null)
    | IndexOutOfBounds    // IndexOutOfBoundsException (List.get, String.substring)
    | RuntimeError        // RuntimeErrorException (a parameter index past the argument list)
    | NumberFormat        // NumberFormatException (Integer.parseInt)
    | IllegalAccess       // IllegalAccessError: a break that no while caught, leaving execute
    | OutOfSteps          // not a Java exception: the model's bound on loop iterations and calls

  /** What unwinds an evaluation: a break (IllegalAccessError), the
      suspension of a budget-exhausted action (IllegalPathStateException),
      or any other exception. */
  datatype Signal = BreakSignal | SuspendSignal | Thrown(error: Error)

  /** The outcome of one evaluation step: a normal result or a signal. */
  datatype Res<+T> = Ok(value: T) | Raise(signal: Signal)

  /** `(double) obj`: a Double is unboxed, null fails to unbox, anything else
      fails the cast. */
  function CastDouble(v: Value): (r: Res<real>)
    ensures r.Ok? <==> v.Num?
    ensures r.Ok? ==> r.value == v.num
    ensures v == Null ==> r == Raise(Thrown(NullPointer))
    ensures !v.Num? && v != Null ==> r == Raise(Thrown(ClassCast))
  {
    match v
    case Num(x) => Ok(x)
    case Null => Raise(Thrown(NullPointer))
    case _ => Raise(Thrown(ClassCast))
  }

  /** `(boolean) obj`: a Boolean is unboxed, null fails to unbox, anything
      else fails the cast. */
  function CastBoolean(v: Value): (r: Res<bool>)
    ensures r.Ok? <==> v.Bool?
    ensures r.Ok? ==> r.value == v.truth
    ensures v == Null ==> r == Raise(Thrown(NullPointer))
    ensures !v.Bool? && v != Null ==> r == Raise(Thrown(ClassCast))
  {
    match v
    case Bool(b) => Ok(b)
    case Null => Raise(Thrown(NullPointer))
    case _ => Raise(Thrown(ClassCast))
  }

  /** `((Entity) obj).getter()`: an entity is usable, null fails at the
      call, anything else fails the cast. */
  function CastEntity(v: Value): (r: Res<EntityId>)
    ensures r.Ok? <==> v.Ent?
    ensures r.Ok? ==> r.value == v.entity
    ensures v == Null ==> r == Raise(Thrown(NullPointer))
    ensures !v.Ent? && v != Null ==> r == Raise(Thrown(ClassCast))
  {
    match v
    case Ent(e) => Ok(e)
    case Null => Raise(Thrown(NullPointer))
    case _ => Raise(Thrown(ClassCast))
  }
}
