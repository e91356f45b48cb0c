/**
 * The behaviours the unit tests of tests/test_example_calculator.py check, derived
 * from the contracts of the model: each calculator below is a fresh one, as in the
 * tests' `setup_method`.
 */
module Examples {
  import opened Numbers
  import opened Arithmetic
  import opened Statistics
  import opened Calc

  /** `chain(10).chain_add(5).chain_multiply(2).chain_subtract(10).chain_divide(4).get_result()`:
      each chain call hands back the calculator itself, so the calls compose. */
  method ChainScenario() returns (r: Result<real>)
    ensures r == Ok(5.0)
  {
    var calculator := new Calculator();
    var r1 := calculator.Chain(IntV(10));
    var r2 := r1.value.ChainAdd(IntV(5));
    var r3 := r2.value.ChainMultiply(IntV(2));
    var r4 := r3.value.ChainSubtract(IntV(10));
    var r5 := r4.value.ChainDivide(IntV(4));
    r := r5.value.GetResult();
  }

  /** `chain(2).chain_power(3).chain_add(2).get_result()`, whatever the host's real
      exponentiation does on non-natural exponents. */
  method ChainPowerScenario(realPow: (real, real) -> real) returns (r: Result<real>)
    ensures r == Ok(10.0)
  {
    var calculator := new Calculator();
    var r1 := calculator.Chain(IntV(2));
    var r2 := r1.value.ChainPower(IntV(3), realPow);
    assert PowNat(2.0, 3) == 8.0;
    var r3 := r2.value.ChainAdd(IntV(2));
    r := r3.value.GetResult();
  }

  /** `chain(0).chain_power(0.5).get_result()`: zero to a positive fractional power is zero. */
  method ChainPowerOfZeroScenario(realPow: (real, real) -> real) returns (r: Result<real>)
    ensures r == Ok(0.0)
  {
    var calculator := new Calculator();
    var r1 := calculator.Chain(IntV(0));
    var r2 := r1.value.ChainPower(FloatV(0.5), realPow);
    r := r2.value.GetResult();
  }

  /** `chain(100).chain_add(50)`, `reset_chain()`, then `chain(5).chain_multiply(3).get_result()`:
      the old accumulator plays no part. */
  method ChainResetScenario() returns (r: Result<real>)
    ensures r == Ok(15.0)
  {
    var calculator := new Calculator();
    var r1 := calculator.Chain(IntV(100));
    var r2 := r1.value.ChainAdd(IntV(50));
    calculator.ResetChain();
    var r3 := calculator.Chain(IntV(5));
    var r4 := r3.value.ChainMultiply(IntV(3));
    r := r4.value.GetResult();
  }

  /** On a chain that was never started, every chain call fails with the
      not-initialized error, even when its argument is not a number or is zero. */
  method NeverStartedScenario(realPow: (real, real) -> real)
    returns (added: Result<Calculator>, subtracted: Result<Calculator>, multiplied: Result<Calculator>,
             divided: Result<Calculator>, powered: Result<Calculator>, result: Result<real>)
    ensures added == Err(InvalidOperation(ChainNotInitialized))
    ensures subtracted == Err(InvalidOperation(ChainNotInitialized))
    ensures multiplied == Err(InvalidOperation(ChainNotInitialized))
    ensures divided == Err(InvalidOperation(ChainNotInitialized))
    ensures powered == Err(InvalidOperation(ChainNotInitialized))
    ensures result == Err(InvalidOperation(ChainNotInitialized))
  {
    var calculator := new Calculator();
    added := calculator.ChainAdd(Other("str"));
    subtracted := calculator.ChainSubtract(IntV(1));
    multiplied := calculator.ChainMultiply(Other("NoneType"));
    divided := calculator.ChainDivide(IntV(0));
    powered := calculator.ChainPower(IntV(2), realPow);
    result := calculator.GetResult();
  }

  /** After `chain(1).chain_add(2)` and `reset_chain()`, every chain call fails again
      with the not-initialized error. */
  method AfterResetScenario(realPow: (real, real) -> real)
    returns (added: Result<Calculator>, subtracted: Result<Calculator>, multiplied: Result<Calculator>,
             divided: Result<Calculator>, powered: Result<Calculator>, result: Result<real>)
    ensures added == Err(InvalidOperation(ChainNotInitialized))
    ensures subtracted == Err(InvalidOperation(ChainNotInitialized))
    ensures multiplied == Err(InvalidOperation(ChainNotInitialized))
    ensures divided == Err(InvalidOperation(ChainNotInitialized))
    ensures powered == Err(InvalidOperation(ChainNotInitialized))
    ensures result == Err(InvalidOperation(ChainNotInitialized))
  {
    var calculator := new Calculator();
    var started := calculator.Chain(IntV(1));
    var grown := calculator.ChainAdd(IntV(2));
    calculator.ResetChain();
    added := calculator.ChainAdd(IntV(5));
    subtracted := calculator.ChainSubtract(Other("str"));
    multiplied := calculator.ChainMultiply(IntV(3));
    divided := calculator.ChainDivide(IntV(0));
    powered := calculator.ChainPower(FloatV(0.5), realPow);
    result := calculator.GetResult();
  }

  /** The memory tests, plus store 10, add 5, subtract 3. */
  method MemoryScenario() returns (initial: real, added: real, subtracted: real, cleared: real, both: real)
    ensures initial == 0.0
    ensures added == 15.0
    ensures subtracted == 7.0
    ensures cleared == 0.0
    ensures both == 12.0
  {
    var calculator := new Calculator();
    initial := calculator.MemoryRecall();

    calculator := new Calculator();
    var o := calculator.MemoryStore(IntV(10));
    o := calculator.MemoryAdd(IntV(5));
    added := calculator.MemoryRecall();

    calculator := new Calculator();
    o := calculator.MemoryStore(IntV(10));
    o := calculator.MemorySubtract(IntV(3));
    subtracted := calculator.MemoryRecall();

    calculator := new Calculator();
    o := calculator.MemoryStore(IntV(100));
    calculator.MemoryClear();
    cleared := calculator.MemoryRecall();

    calculator := new Calculator();
    o := calculator.MemoryStore(IntV(10));
    o := calculator.MemoryAdd(IntV(5));
    o := calculator.MemorySubtract(IntV(3));
    both := calculator.MemoryRecall();
  }

  /** A failed memory call leaves the register as it was. */
  method MemoryTypeErrorScenario() returns (o: Outcome, recalled: real)
    ensures o == Fail(TypeErr("str"))
    ensures recalled == 42.0
  {
    var calculator := new Calculator();
    o := calculator.MemoryStore(IntV(42));
    o := calculator.MemoryAdd(Other("str"));
    recalled := calculator.MemoryRecall();
  }

  lemma DivideExamples()
    ensures Divide(IntV(10), IntV(0)) == Err(DivisionByZero)
    ensures Divide(IntV(7), IntV(2)) == Ok(3.5)
    ensures Divide(IntV(-10), IntV(2)) == Ok(-5.0)
    ensures Divide(Other("str"), IntV(0)) == Err(TypeErr("str"))
  {
  }

  /** `(10 + 5) * 2 - 8 / 4`, each step fed to the next as a float. */
  lemma ComplexCalculation()
    ensures Subtract(FloatV(Multiply(FloatV(Add(IntV(10), IntV(5)).value), IntV(2)).value),
                     FloatV(Divide(IntV(8), IntV(4)).value)) == Ok(28.0)
  {
  }

  /** `add` refuses a string, `None`, a list or a dict in either position, naming the first. */
  lemma AddTypeErrors()
    ensures Add(Other("str"), IntV(3)) == Err(TypeErr("str"))
    ensures Add(IntV(5), Other("str")) == Err(TypeErr("str"))
    ensures Add(Other("NoneType"), IntV(5)) == Err(TypeErr("NoneType"))
    ensures Add(IntV(5), Other("NoneType")) == Err(TypeErr("NoneType"))
    ensures Add(Other("list"), IntV(5)) == Err(TypeErr("list"))
    ensures Add(Other("dict"), IntV(5)) == Err(TypeErr("dict"))
    ensures Add(Other("list"), Other("dict")) == Err(TypeErr("list"))
  {
  }

  lemma FactorialExamples()
    ensures Factorial(IntV(0)) == Ok(1)
    ensures Factorial(IntV(1)) == Ok(1)
    ensures Factorial(IntV(5)) == Ok(120)
    ensures Factorial(IntV(10)) == Ok(3628800)
    ensures Factorial(FloatV(5.0)) == Ok(120)
    ensures Factorial(IntV(-1)) == Err(InvalidOperation(NegativeFactorial))
    ensures Factorial(FloatV(3.5)) == Err(InvalidOperation(NonIntegerFactorial))
    ensures Factorial(FloatV(-3.5)) == Err(InvalidOperation(NegativeFactorial))
  {
  }

  /** `power(2, 3) == 8`, `power(10, 0) == 1`, `power(2, -1) == 0.5` and
      `power(4, -2) == 0.0625`. */
  lemma PowerExamples(realPow: (real, real) -> real)
    ensures Power(IntV(2), IntV(3), realPow) == Ok(8.0)
    ensures Power(IntV(10), IntV(0), realPow) == Ok(1.0)
    ensures Power(IntV(2), IntV(-1), realPow) == Ok(0.5)
    ensures Power(IntV(4), IntV(-2), realPow) == Ok(0.0625)
  {
    assert PowNat(2.0, 3) == 8.0;
    assert PowNat(2.0, 1) == 2.0;
    assert PowNat(4.0, 2) == 16.0;
  }

  /** Zero to a negative power and a negative base to a fractional power fail, a
      non-number fails first, and zero to a positive fractional power is zero. */
  lemma PowerEdgeCases(realPow: (real, real) -> real)
    ensures Power(IntV(0), IntV(-1), realPow) == Err(ZeroDivision)
    ensures Power(IntV(-8), FloatV(0.5), realPow) == Err(TypeErr("complex"))
    ensures Power(Other("str"), IntV(0), realPow) == Err(TypeErr("str"))
    ensures Power(IntV(0), FloatV(0.5), realPow) == Ok(0.0)
  {
  }

  lemma SqrtErrors(mathSqrt: real -> real)
    ensures Sqrt(IntV(-1), mathSqrt) == Err(InvalidOperation(NegativeSqrt))
    ensures Sqrt(IntV(0), mathSqrt).Ok?
  {
  }

  lemma MeanExamples()
    ensures Mean([IntV(1), IntV(2), IntV(3), IntV(4), IntV(5)]) == Ok(3.0)
    ensures Mean([IntV(10), IntV(20)]) == Ok(15.0)
    ensures Mean([]) == Err(InvalidOperation(EmptyInput))
    ensures Mean([IntV(1), Other("str")]) == Err(TypeErr("str"))
  {
  }

  /** `median([1, 2, 3, 4]) == 2.5`: the average of the two central values. */
  lemma MedianOfEven(numbers: seq<Val>)
    requires numbers == [IntV(1), IntV(2), IntV(3), IntV(4)]
    ensures Median(numbers) == Ok(2.5)
  {
    var xs := [1.0, 2.0, 3.0, 4.0];
    RealsOfList(numbers, xs);
    assert Sorted(xs);
    MedianIsMiddleOf(numbers, xs);
  }

  /** `median([3, 1, 2]) == 2`: the central value once sorted. */
  lemma MedianOfOdd(numbers: seq<Val>)
    requires numbers == [IntV(3), IntV(1), IntV(2)]
    ensures Median(numbers) == Ok(2.0)
  {
    var xs := [3.0, 1.0, 2.0];
    RealsOfList(numbers, xs);
    var s := [1.0, 2.0, 3.0];
    assert multiset(s) == multiset(xs) by {
      assert xs == [3.0] + [1.0, 2.0];
      assert s == [1.0, 2.0] + [3.0];
    }
    MedianIsMiddleOf(numbers, s);
  }

  /** The median of a list of numbers is the middle of any sorting of it. */
  lemma MedianIsMiddleOf(numbers: seq<Val>, s: seq<real>)
    requires AllNumbers(numbers) && |numbers| > 0 && IsSortingOf(s, Reals(numbers))
    ensures Median(numbers) == Ok(MiddleOf(s))
  {
  }

  /** `numbers` holds the ints whose values are `xs`. */
  lemma RealsOfList(numbers: seq<Val>, xs: seq<real>)
    requires |numbers| == |xs|
    requires forall i :: 0 <= i < |numbers| ==> numbers[i].IntV? && numbers[i].i as real == xs[i]
    ensures AllNumbers(numbers) && Reals(numbers) == xs
  {
  }

  /** `median([5]) == 5`, and an empty list has no median. */
  lemma MedianEdgeCases(single: seq<Val>)
    requires single == [IntV(5)]
    ensures Median(single) == Ok(5.0)
    ensures Median([]) == Err(InvalidOperation(EmptyInput))
  {
    assert Reals(single) == [5.0];
    assert IsSortingOf([5.0], [5.0]);
  }

  /** In `[1, 2, 2, 3, 3, 3]` the value 3 at position 3 is the mode. */
  lemma ModeAtThree()
    ensures IsModeAt([1.0, 2.0, 2.0, 3.0, 3.0, 3.0], 3)
  {
    var xs := [1.0, 2.0, 2.0, 3.0, 3.0, 3.0];
    assert multiset(xs) == multiset{1.0, 2.0, 2.0, 3.0, 3.0, 3.0};
    assert multiset(xs)[1.0] == 1 && multiset(xs)[2.0] == 2 && multiset(xs)[3.0] == 3;
  }

  /** In `[1, 1, 2, 2]` both values occur twice and the first, at position 0, wins. */
  lemma ModeAtZero()
    ensures IsModeAt([1.0, 1.0, 2.0, 2.0], 0)
  {
    var xs := [1.0, 1.0, 2.0, 2.0];
    assert multiset(xs) == multiset{1.0, 1.0, 2.0, 2.0};
    assert multiset(xs)[1.0] == 2 && multiset(xs)[2.0] == 2;
  }

  /** `mode([1, 2, 2, 3, 3, 3]) == 3` */
  method ModeOfRepeated() returns (r: Result<Val>)
    ensures r == Ok(IntV(3))
  {
    var numbers := [IntV(1), IntV(2), IntV(2), IntV(3), IntV(3), IntV(3)];
    r := Mode(numbers);
    ghost var xs := [1.0, 2.0, 2.0, 3.0, 3.0, 3.0];
    RealsOfList(numbers, xs);
    ghost var k :| IsModeAt(xs, k) && r.value == numbers[k];
    ModeAtThree();
    ModeIsUnique(xs, k, 3);
  }

  /** `mode([1, 1, 2, 2]) == 1`: the first of the tied values. */
  method ModeOfTie() returns (r: Result<Val>)
    ensures r == Ok(IntV(1))
  {
    var numbers := [IntV(1), IntV(1), IntV(2), IntV(2)];
    r := Mode(numbers);
    ghost var xs := [1.0, 1.0, 2.0, 2.0];
    RealsOfList(numbers, xs);
    ghost var k :| IsModeAt(xs, k) && r.value == numbers[k];
    ModeAtZero();
    ModeIsUnique(xs, k, 0);
  }

  /** `mode([5]) == 5` */
  method ModeOfSingle() returns (r: Result<Val>)
    ensures r == Ok(IntV(5))
  {
    r := Mode([IntV(5)]);
  }
}
