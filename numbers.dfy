/**
 * Argument values, the calculator's error kinds, and the argument validation that
 * every operation runs before it computes anything or touches state.
 */
module Numbers {

  /** A Python argument as the calculator sees it: an `int`, a `float`, or any other
      object, which only carries the name of its type (`str`, `NoneType`, `list`, ...). */
  datatype Val = IntV(i: int) | FloatV(f: real) | Other(typeName: string)
  {
    /** `isinstance(value, int | float)` */
    predicate IsNumber() {
      IntV? || FloatV?
    }

    /** The numeric value of an int or a float. */
    function Real(): real
      requires IsNumber()
    {
      if IntV? then i as real else f
    }

    /** `type(value).__name__` */
    function TypeName(): string {
      match this
      case IntV(_) => "int"
      case FloatV(_) => "float"
      case Other(t) => t
    }
  }

  /** Which domain rule an `InvalidOperationError` reports. */
  datatype InvalidReason =
    | NegativeSqrt
    | NegativeFactorial
    | NonIntegerFactorial
    | EmptyInput
    | ChainNotInitialized

  /** The errors the calculator raises: Python's `TypeError` (naming the offending type),
      the calculator's `DivisionByZeroError` and `InvalidOperationError`, and Python's own
      `ZeroDivisionError`, which escapes from `**` when zero is raised to a negative power. */
  datatype CalcError =
    | TypeErr(typeName: string)
    | DivisionByZero
    | InvalidOperation(reason: InvalidReason)
    | ZeroDivision

  datatype Option<T> = None | Some(value: T)

  /** The value an operation returns, or the error it raises. */
  datatype Result<T> = Ok(value: T) | Err(error: CalcError)

  /** The outcome of a check or of an operation that returns nothing (`-> None` in
      Python): it passes, or raises `error`. */
  datatype Outcome = Pass | Fail(error: CalcError)

  predicate AllNumbers(vs: seq<Val>) {
    forall k :: 0 <= k < |vs| ==> vs[k].IsNumber()
  }

  /** `vs[k]` is the first argument that is not a number. */
  predicate FirstNonNumberAt(vs: seq<Val>, k: int) {
    0 <= k < |vs| && !vs[k].IsNumber() && AllNumbers(vs[..k])
  }

  /** `r` is the `TypeError` naming the first non-number of `vs`, if there is one. */
  ghost predicate RejectsFirstNonNumber<T>(vs: seq<Val>, r: Result<T>) {
    forall k :: FirstNonNumberAt(vs, k) ==> r == Err(TypeErr(vs[k].TypeName()))
  }

  /** `_validate_number(value)`: a `TypeError` naming the value's type unless it is an
      int or a float. */
  function ValidateNumber(v: Val): (o: Outcome)
    ensures o == Pass <==> v.IsNumber()
    ensures o.Fail? ==> o.error == TypeErr(v.TypeName()) && v.Other?
  {
    if v.IsNumber() then Pass else Fail(TypeErr(v.TypeName()))
  }

  /** `_validate_numbers(*values)`, and the validation loops over a list: the arguments
      are checked left to right and the first non-number stops the check. It passes
      exactly when every argument is a number, and otherwise reports the type of the
      leftmost argument that is not. */
  function CheckNumbers(vs: seq<Val>): (o: Outcome)
    ensures o == Pass <==> AllNumbers(vs)
    ensures forall k :: FirstNonNumberAt(vs, k) ==> o == Fail(TypeErr(vs[k].TypeName()))
  {
    if vs == [] then Pass
    else if !vs[0].IsNumber() then ValidateNumber(vs[0])
    else
      var rest := CheckNumbers(vs[1..]);
      FirstNonNumberInTail(vs);
      AllNumbersCons(vs);
      rest
  }

  /** When the head is a number, the first non-number is one place further on in the tail. */
  lemma FirstNonNumberInTail(vs: seq<Val>)
    requires vs != [] && vs[0].IsNumber()
    ensures forall k :: FirstNonNumberAt(vs, k) ==> k > 0 && FirstNonNumberAt(vs[1..], k - 1)
  {
    forall k | FirstNonNumberAt(vs, k) ensures k > 0 && FirstNonNumberAt(vs[1..], k - 1) {
      var before := vs[1..][..k - 1];
      forall j | 0 <= j < k - 1 ensures before[j].IsNumber() {
        assert before[j] == vs[..k][j + 1];
      }
      assert vs[k] == vs[1..][k - 1];
    }
  }

  lemma AllNumbersCons(vs: seq<Val>)
    requires vs != []
    ensures AllNumbers(vs) <==> vs[0].IsNumber() && AllNumbers(vs[1..])
  {
    if vs[0].IsNumber() && AllNumbers(vs[1..]) {
      forall k | 0 <= k < |vs| ensures vs[k].IsNumber() {
        if k > 0 { assert vs[k] == vs[1..][k - 1]; }
      }
    }
  }

  /** The validation loop `for num in numbers: self._validate_number(num)`: checks each
      value in turn and stops at the first that is not a number. */
  method ValidateNumbers(vs: seq<Val>) returns (o: Outcome)
    ensures o == CheckNumbers(vs)
    ensures o == Pass <==> AllNumbers(vs)
    ensures forall k :: FirstNonNumberAt(vs, k) ==> o == Fail(TypeErr(vs[k].TypeName()))
  {
    var i := 0;
    while i < |vs|
      invariant 0 <= i <= |vs|
      invariant CheckNumbers(vs[i..]) == CheckNumbers(vs)
    {
      o := ValidateNumber(vs[i]);
      if o.Fail? {
        return;
      }
      assert vs[i..][1..] == vs[i + 1..];
      i := i + 1;
    }
    o := Pass;
  }
}
