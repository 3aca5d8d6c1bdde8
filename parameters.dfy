/** Formal parameters `$n`: reading the parameter number from the name
    (`ParameterExpression.getParameterNumber`) and fetching the matching
    actual argument. Inside a function body the actual arguments are always
    number literals (the call replaces every argument by its value), and at
    top level there is no argument list, so an argument list is modelled as
    `Option<seq<real>>`. */
module Parameters {
  import opened Values

  const IntMin: int := -0x8000_0000
  const IntMax: int := 0x7fff_ffff

  predicate IsDigit(c: char) { '0' <= c <= '9' }

  predicate AllDigits(s: string) { forall i :: 0 <= i < |s| ==> IsDigit(s[i]) }

  function DigitValue(c: char): nat
    requires IsDigit(c)
  {
    (c as int) - ('0' as int)
  }

  /** The value of a string of decimal digits, most significant first. */
  function DigitsValue(s: string): nat
    requires AllDigits(s)
  {
    if s == [] then 0 else DigitsValue(s[..|s| - 1]) * 10 + DigitValue(s[|s| - 1])
  }

  /** `Integer.parseInt(text)`: an optional sign, at least one decimal
      digit, and a value in the 32-bit range; anything else is a
      NumberFormatException. */
  function ParseInt(text: string): (r: Res<int>)
    ensures r.Ok? ==> IntMin <= r.value <= IntMax
    ensures r.Raise? ==> r == Raise(Thrown(NumberFormat))
    ensures text == [] ==> r.Raise?
  {
    var signed := |text| > 0 && (text[0] == '-' || text[0] == '+');
    var digits := if signed then text[1..] else text;
    if digits == [] || !AllDigits(digits) then Raise(Thrown(NumberFormat))
    else
      var magnitude: int := DigitsValue(digits);
      var v := if signed && text[0] == '-' then -magnitude else magnitude;
      if IntMin <= v <= IntMax then Ok(v) else Raise(Thrown(NumberFormat))
  }

  /** `getParameterNumber()`: the name after its first character, parsed as
      an int; `substring(1)` of an empty name is out of bounds. */
  function ParameterNumber(name: string): (r: Res<int>)
    ensures name == [] ==> r == Raise(Thrown(IndexOutOfBounds))
    ensures name != [] ==> r == ParseInt(name[1..])
  {
    if name == [] then Raise(Thrown(IndexOutOfBounds)) else ParseInt(name[1..])
  }

  /** `actualArgs.get(getParameterNumber() - 1)`, evaluated: the value of
      the n-th actual argument, counting from 1. A malformed name fails
      first, then a missing argument list (null), then an index outside the
      list. */
  function ArgumentValue(name: string, args: Option<seq<real>>): (r: Res<real>)
    ensures r.Ok? <==> ParameterNumber(name).Ok? && args.Some?
                       && 1 <= ParameterNumber(name).value <= |args.value|
    ensures r.Ok? ==> r.value == args.value[ParameterNumber(name).value - 1]
    ensures ParameterNumber(name).Ok? && args.None? ==> r == Raise(Thrown(NullPointer))
  {
    var n := ParameterNumber(name);
    if n.Raise? then Raise(n.signal)
    else if args.None? then Raise(Thrown(NullPointer))
    else if !(1 <= n.value <= |args.value|) then Raise(Thrown(IndexOutOfBounds))
    else Ok(args.value[n.value - 1])
  }

  /** The decimal digits of `n`, most significant first. */
  function DecimalString(n: nat): (s: string)
    ensures |s| > 0 && AllDigits(s)
  {
    var d := ['0' + (n % 10) as char];
    if n < 10 then d else DecimalString(n / 10) + d
  }

  lemma {:induction false} DecimalStringValue(n: nat)
    ensures DigitsValue(DecimalString(n)) == n
  {
    var s := DecimalString(n);
    if n >= 10 {
      DecimalStringValue(n / 10);
      assert s[..|s| - 1] == DecimalString(n / 10);
    }
  }

  /** The name `"$n"` the parser builds for the n-th parameter reads back as n. */
  lemma ParameterNumberRoundTrip(n: nat)
    requires n <= IntMax
    ensures ParameterNumber("$" + DecimalString(n)) == Ok(n)
  {
    var s := DecimalString(n);
    assert ("$" + s)[1..] == s;
    DecimalStringValue(n);
    assert IsDigit(s[0]);
  }

  /** A number parameter name `"$n"` with 1 <= n <= |args| reads the n-th argument. */
  lemma ParameterReadsArgument(n: nat, args: seq<real>)
    requires 1 <= n <= |args| && n <= IntMax
    ensures ArgumentValue("$" + DecimalString(n), Some(args)) == Ok(args[n - 1])
  {
    ParameterNumberRoundTrip(n);
  }
}
