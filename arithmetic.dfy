/**
 * The calculator's stateless operations on one or two arguments: the four basic
 * operations, `power`, `sqrt` and `factorial`. Each validates its arguments left
 * to right before it checks its domain rule, and only then computes.
 *
 * Numbers are mathematical: an int is an `int`, a float a `real`. `math.sqrt`, and
 * Python's exponentiation of a positive base to a fractional power, are not modelled;
 * they are passed in as `mathSqrt` and `realPow`.
 */
module Arithmetic {
  import opened Numbers

  /** The two validation errors of `_validate_numbers(a, b)`, in the order it raises them. */
  ghost predicate RejectsNonNumbers<T>(a: Val, b: Val, r: Result<T>) {
    && (!a.IsNumber() ==> r == Err(TypeErr(a.TypeName())))
    && (a.IsNumber() && !b.IsNumber() ==> r == Err(TypeErr(b.TypeName())))
  }

  lemma PairValidation(a: Val, b: Val)
    ensures CheckNumbers([a, b]) == Pass <==> a.IsNumber() && b.IsNumber()
    ensures !a.IsNumber() ==> CheckNumbers([a, b]) == Fail(TypeErr(a.TypeName()))
    ensures a.IsNumber() && !b.IsNumber() ==> CheckNumbers([a, b]) == Fail(TypeErr(b.TypeName()))
  {
    assert [a, b][..0] == [];
    assert [a, b][..1] == [a];
    if !a.IsNumber() {
      assert FirstNonNumberAt([a, b], 0);
    } else if !b.IsNumber() {
      assert FirstNonNumberAt([a, b], 1);
    }
  }

  /** `add(a, b)` */
  function Add(a: Val, b: Val): (r: Result<real>)
    ensures r.Ok? <==> a.IsNumber() && b.IsNumber()
    ensures RejectsNonNumbers(a, b, r)
    ensures r.Ok? ==> r.value == a.Real() + b.Real()
  {
    PairValidation(a, b);
    match CheckNumbers([a, b])
    case Fail(e) => Err(e)
    case Pass => Ok(a.Real() + b.Real())
  }

  /** `subtract(a, b)` */
  function Subtract(a: Val, b: Val): (r: Result<real>)
    ensures r.Ok? <==> a.IsNumber() && b.IsNumber()
    ensures RejectsNonNumbers(a, b, r)
    ensures r.Ok? ==> r.value + b.Real() == a.Real()
  {
    PairValidation(a, b);
    match CheckNumbers([a, b])
    case Fail(e) => Err(e)
    case Pass => Ok(a.Real() - b.Real())
  }

  /** `multiply(a, b)` */
  function Multiply(a: Val, b: Val): (r: Result<real>)
    ensures r.Ok? <==> a.IsNumber() && b.IsNumber()
    ensures RejectsNonNumbers(a, b, r)
    ensures r.Ok? ==> r.value == a.Real() * b.Real()
  {
    PairValidation(a, b);
    match CheckNumbers([a, b])
    case Fail(e) => Err(e)
    case Pass => Ok(a.Real() * b.Real())
  }

  /** `divide(a, b)`: a zero divisor is reported only once both arguments are numbers. */
  function Divide(a: Val, b: Val): (r: Result<real>)
    ensures r.Ok? <==> a.IsNumber() && b.IsNumber() && b.Real() != 0.0
    ensures RejectsNonNumbers(a, b, r)
    ensures a.IsNumber() && b.IsNumber() && b.Real() == 0.0 ==> r == Err(DivisionByZero)
    ensures r.Ok? ==> r.value * b.Real() == a.Real()
  {
    PairValidation(a, b);
    match CheckNumbers([a, b])
    case Fail(e) => Err(e)
    case Pass => if b.Real() == 0.0 then Err(DivisionByZero) else Ok(a.Real() / b.Real())
  }

  /** Adding `b` and then subtracting it gives back `a`. */
  lemma AddThenSubtract(a: Val, b: Val)
    requires a.IsNumber() && b.IsNumber()
    ensures Subtract(FloatV(Add(a, b).value), b) == Ok(a.Real())
  {
  }

  /** Dividing by a non-zero `b` and then multiplying by it gives back `a`. */
  lemma DivideThenMultiply(a: Val, b: Val)
    requires a.IsNumber() && b.IsNumber() && b.Real() != 0.0
    ensures Multiply(FloatV(Divide(a, b).value), b) == Ok(a.Real())
  {
    var q := Divide(a, b).value;
    assert q * b.Real() == a.Real();
    assert FloatV(q).IsNumber() && FloatV(q).Real() == q;
    var m := Multiply(FloatV(q), b);
    assert m.Ok? && m.value == q * b.Real();
  }

  /** `x` is a whole number (`x.is_integer()`). */
  predicate IsWhole(x: real) {
    x.Floor as real == x
  }

  /** `x` is a non-negative whole number. */
  predicate IsNatural(x: real) {
    0.0 <= x && IsWhole(x)
  }

  /** `b` raised to a natural power. */
  function PowNat(b: real, n: nat): real {
    if n == 0 then 1.0 else b * PowNat(b, n - 1)
  }

  lemma {:induction false} PowNatAdd(b: real, m: nat, n: nat)
    ensures PowNat(b, m + n) == PowNat(b, m) * PowNat(b, n)
  {
    if m > 0 {
      PowNatAdd(b, m - 1, n);
      calc {
        PowNat(b, m + n);
        b * PowNat(b, (m - 1) + n);
        b * (PowNat(b, m - 1) * PowNat(b, n));
        (b * PowNat(b, m - 1)) * PowNat(b, n);
      }
    }
  }

  lemma {:induction false} PowNatNonZero(b: real, n: nat)
    requires b != 0.0
    ensures PowNat(b, n) != 0.0
  {
    if n > 0 {
      PowNatNonZero(b, n - 1);
    }
  }

  /** What Python's `base ** exponent` gives on two numbers: a real power, a complex
      number, or a `ZeroDivisionError`. */
  datatype Powered = PowerOf(value: real) | ComplexPower | ZeroToNegativePower

  /** Python's `base ** exponent` on numbers. Zero raised to a negative power raises
      `ZeroDivisionError`; a negative base raised to a fractional power is a complex
      number; a whole exponent gives the exact power or its reciprocal; zero raised to a
      positive power is zero. A positive base raised to a fractional power is the host's
      real exponentiation `realPow`. */
  function Pow(base: real, exponent: real, realPow: (real, real) -> real): (r: Powered)
    ensures r == ZeroToNegativePower <==> base == 0.0 && exponent < 0.0
    ensures r == ComplexPower <==> base < 0.0 && !IsWhole(exponent)
    ensures IsNatural(exponent) ==> r == PowerOf(PowNat(base, exponent.Floor))
    ensures IsWhole(exponent) && exponent < 0.0 && base != 0.0 ==>
              r.PowerOf? && r.value * PowNat(base, (-exponent).Floor) == 1.0
    ensures base == 0.0 && exponent > 0.0 ==> r == PowerOf(0.0)
    ensures base > 0.0 && !IsWhole(exponent) ==> r == PowerOf(realPow(base, exponent))
  {
    if IsNatural(exponent) then PowerOf(PowNat(base, exponent.Floor))
    else if base == 0.0 then (if exponent < 0.0 then ZeroToNegativePower else PowerOf(0.0))
    else if IsWhole(exponent) then
      PowNatNonZero(base, (-exponent).Floor);
      PowerOf(1.0 / PowNat(base, (-exponent).Floor))
    else if base < 0.0 then ComplexPower
    else PowerOf(realPow(base, exponent))
  }

  /** A power with a negative whole exponent is the reciprocal of the power with the
      opposite exponent: `b ** -n * b ** n == 1` for a non-zero `b`. */
  lemma NegatedExponent(base: real, n: nat, realPow: (real, real) -> real)
    requires base != 0.0 && n > 0
    ensures Pow(base, -(n as real), realPow).PowerOf? && Pow(base, n as real, realPow).PowerOf?
    ensures Pow(base, -(n as real), realPow).value * Pow(base, n as real, realPow).value == 1.0
  {
    var e := n as real;
    assert e.Floor == n && IsNatural(e);
    assert (-e).Floor == -(n as int);
    assert -(-e) == e && IsWhole(-e) && -e < 0.0;
    var positive := Pow(base, e, realPow);
    var negative := Pow(base, -e, realPow);
    assert positive == PowerOf(PowNat(base, n));
    assert negative.PowerOf? && negative.value * PowNat(base, n) == 1.0;
  }

  /** `power(base, exponent)`: `float(base ** exponent)`. After the `TypeError` for a
      non-number, zero raised to a negative power escapes as `ZeroDivisionError`, and a
      complex power is refused by `float()` with a `TypeError` naming `complex`. */
  function Power(base: Val, exponent: Val, realPow: (real, real) -> real): (r: Result<real>)
    ensures RejectsNonNumbers(base, exponent, r)
    ensures base.IsNumber() && exponent.IsNumber() && base.Real() == 0.0 && exponent.Real() < 0.0 ==>
              r == Err(ZeroDivision)
    ensures base.IsNumber() && exponent.IsNumber() && base.Real() < 0.0 && !IsWhole(exponent.Real()) ==>
              r == Err(TypeErr("complex"))
    ensures r.Ok? <==> && base.IsNumber() && exponent.IsNumber()
                       && !(base.Real() == 0.0 && exponent.Real() < 0.0)
                       && !(base.Real() < 0.0 && !IsWhole(exponent.Real()))
    ensures r.Ok? && IsNatural(exponent.Real()) ==> r.value == PowNat(base.Real(), exponent.Real().Floor)
    ensures r.Ok? && IsWhole(exponent.Real()) && exponent.Real() < 0.0 ==>
              r.value * PowNat(base.Real(), (-exponent.Real()).Floor) == 1.0
    ensures r.Ok? && base.Real() == 0.0 && exponent.Real() > 0.0 ==> r.value == 0.0
    ensures r.Ok? && base.Real() > 0.0 && !IsWhole(exponent.Real()) ==>
              r.value == realPow(base.Real(), exponent.Real())
  {
    PairValidation(base, exponent);
    match CheckNumbers([base, exponent])
    case Fail(e) => Err(e)
    case Pass =>
      match Pow(base.Real(), exponent.Real(), realPow)
      case PowerOf(v) => Ok(v)
      case ComplexPower => Err(TypeErr("complex"))
      case ZeroToNegativePower => Err(ZeroDivision)
  }

  /** `sqrt(n)`: `InvalidOperationError` exactly for a negative number; the root itself
      is `math.sqrt`, passed in as `mathSqrt`. */
  function Sqrt(n: Val, mathSqrt: real -> real): (r: Result<real>)
    ensures !n.IsNumber() ==> r == Err(TypeErr(n.TypeName()))
    ensures n.IsNumber() && n.Real() < 0.0 ==> r == Err(InvalidOperation(NegativeSqrt))
    ensures r.Ok? <==> n.IsNumber() && n.Real() >= 0.0
    ensures r.Ok? ==> r.value == mathSqrt(n.Real())
  {
    match ValidateNumber(n)
    case Fail(e) => Err(e)
    case Pass =>
      if n.Real() < 0.0 then Err(InvalidOperation(NegativeSqrt)) else Ok(mathSqrt(n.Real()))
  }

  /** `math.factorial`: the product 1 * 2 * ... * n. */
  function Fact(n: nat): (r: nat)
    ensures r >= 1
  {
    if n == 0 then 1 else n * Fact(n - 1)
  }

  /** The factorial grows with its argument and is at least the argument itself. */
  lemma {:induction false} FactMonotone(m: nat, n: nat)
    requires m <= n
    ensures Fact(m) <= Fact(n)
    ensures n <= Fact(n)
  {
    if n > 0 {
      if m < n {
        FactMonotone(m, n - 1);
      } else {
        FactMonotone(n - 1, n - 1);
      }
      MulAtLeast(Fact(n - 1), n);
      MulAtLeast(n, Fact(n - 1));
    }
  }

  lemma MulAtLeast(x: nat, y: nat)
    requires 1 <= y
    ensures x <= x * y
  {
    assert x * y == x + x * (y - 1);
  }

  /** `factorial(n)`: a negative number is refused first, then a float with a
      fractional part; otherwise the factorial of `int(n)`. */
  function Factorial(n: Val): (r: Result<nat>)
    ensures !n.IsNumber() ==> r == Err(TypeErr(n.TypeName()))
    ensures n.IsNumber() && n.Real() < 0.0 ==> r == Err(InvalidOperation(NegativeFactorial))
    ensures n.IsNumber() && n.Real() >= 0.0 && !IsNatural(n.Real()) ==>
              r == Err(InvalidOperation(NonIntegerFactorial))
    ensures r.Ok? <==> n.IsNumber() && IsNatural(n.Real())
    ensures r.Ok? ==> r.value == Fact(n.Real().Floor)
  {
    match ValidateNumber(n)
    case Fail(e) => Err(e)
    case Pass =>
      match n
      case IntV(i) =>
        if i < 0 then Err(InvalidOperation(NegativeFactorial)) else Ok(Fact(i))
      case FloatV(f) =>
        if f < 0.0 then Err(InvalidOperation(NegativeFactorial))
        else if !IsWhole(f) then Err(InvalidOperation(NonIntegerFactorial))
        else Ok(Fact(f.Floor))
  }

  /** `factorial(0) == 1` and `factorial(n) == n * factorial(n - 1)` for n >= 1. */
  lemma FactorialRecurrence(n: nat)
    ensures Factorial(IntV(0)) == Ok(1)
    ensures n >= 1 ==> Factorial(IntV(n)) == Ok(n * Factorial(IntV(n - 1)).value)
  {
  }

  /** A whole-valued float has the same factorial as the int it equals. */
  lemma FactorialOfWholeFloat(x: real)
    requires IsNatural(x)
    ensures Factorial(FloatV(x)) == Factorial(IntV(x.Floor))
  {
  }
}
