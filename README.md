# Calculator, modelled in Dafny

A model of the `Calculator` class of the calculator package, together with
proofs about it. The package ships the class twice, as `src/calculator.py` and
`src/example_calculator.py`. The two files are identical line for line, so one
model covers both. Rows cite either file; a line number means the same line in
both.

The class does three kinds of work:

- stateless arithmetic: `add`, `subtract`, `multiply`, `divide`, `power`,
  `sqrt` and `factorial`;
- statistics over a list: `mean`, `median` and `mode`;
- two pieces of state kept between calls:
  - a memory register, which is always a number;
  - a chain accumulator, which stays unset until `chain()` is called and
    becomes unset again after `reset_chain()`.

Checks run in a fixed order, and a call that raises changes nothing.

- The chain methods (`chain_add`, `chain_subtract`, `chain_multiply`,
  `chain_divide`, `chain_power`, `get_result`) first check that the chain was
  started. On an unset chain, `chain_add("x")` raises `InvalidOperationError`,
  not `TypeError`.
- Next, arguments are validated left to right. The first argument that is not
  an `int` or a `float` raises `TypeError`.
- `mean`, `median` and `mode` refuse an empty list before they look at the
  elements.
- Only then are the domain rules checked: zero divisor, negative root, negative
  or fractional factorial, and zero raised to a negative power.

Layout:

- `numbers.dfy` (module `Numbers`):
  - argument values `Val`: an int, a float, or any other object, which only
    carries its type's name;
  - the error kinds `CalcError`;
  - `Result`, the value or the error of an operation, and `Outcome`, pass or
    the error, for checks and for operations that return nothing;
  - argument validation. `ValidateNumber` is `_validate_number`. `CheckNumbers`
    is the left-to-right validation as a function, which the functions `mean`,
    `median` and `power` use. `ValidateNumbers` is the same loop as a method,
    proved equal to `CheckNumbers`, which the method `mode` runs.
- `arithmetic.dfy` (module `Arithmetic`): the stateless operations.
  - `math.sqrt` is a parameter `mathSqrt`.
  - `**` follows Python on numbers. A whole exponent gives the exact power or
    its reciprocal. Zero raised to a negative power raises `ZeroDivisionError`.
    A negative base raised to a fractional power is complex, so `float()`
    refuses it with `TypeError`. Only a positive base raised to a fractional
    power goes to the parameter `realPow`.
- `statistics.dfy` (module `Statistics`): `mean`, `median` and `mode`.
  - `median` is specified through any ascending rearrangement of the input, and
    the model proves that rearrangement is unique.
  - `mode` is a method. Besides the validation loop it has three loops, all
    proved against `IsModeAt`:
    - counting into a dictionary;
    - `max` over the counts;
    - finding the first key, in insertion order, with that count.
- `calculator.dfy` (module `Calc`): class `Calculator` with fields `memory` and
  `chainValue`, and the memory and chain methods, which update them in place.
- `examples.dfy` (module `Examples`): the behaviours the unit tests in
  `tests/test_example_calculator.py` check, plus error cases of the source the
  tests do not exercise, all derived from the contracts.

## Model

| member | source | states |
|---|---|---|
| Numbers.ValidateNumber | src/calculator.py:467-478 | passes exactly for an int or a float; otherwise `TypeError` naming the value's type |
| Numbers.CheckNumbers | src/calculator.py:480-491 | validation passes exactly when every argument is an int or a float; otherwise it reports `TypeError` naming the type of the leftmost offender |
| Numbers.ValidateNumbers | src/calculator.py:480-491 | the loop over the arguments stops at the first non-number; it reports that value's type, and nothing when all are numbers |
| Arithmetic.PairValidation | src/calculator.py:480-491 | on two arguments, validation fails on the first if it is not a number, else on the second, else passes |
| Arithmetic.Add | src/calculator.py:47-62 | ok exactly when both are numbers, with their sum; otherwise `TypeError` for the first non-number |
| Arithmetic.Subtract | src/calculator.py:64-79 | ok exactly when both are numbers, and the result plus `b` gives `a`; otherwise `TypeError` for the first non-number |
| Arithmetic.Multiply | src/calculator.py:81-96 | ok exactly when both are numbers, with their product; otherwise `TypeError` for the first non-number |
| Arithmetic.Divide | src/calculator.py:98-116 | `TypeError` first, then `DivisionByZeroError` exactly for a zero divisor; otherwise the result times `b` gives `a` |
| Arithmetic.AddThenSubtract | src/example_calculator.py:47-79 | subtracting `b` from `add(a, b)` gives back `a` |
| Arithmetic.DivideThenMultiply | src/example_calculator.py:81-116 | multiplying `divide(a, b)` by a non-zero `b` gives back `a` |
| Arithmetic.PowNatAdd | src/example_calculator.py:120-135 | `b ** (m + n) == b ** m * b ** n` for natural exponents, where `PowNat` is `**` on a natural exponent |
| Arithmetic.Pow | src/calculator.py:135 | `**` on numbers: `ZeroDivisionError` exactly for zero raised to a negative power; complex exactly for a negative base raised to a fractional power; repeated multiplication for a natural exponent, its reciprocal for a negative whole one; zero for zero raised to a positive power |
| Arithmetic.NegatedExponent | src/example_calculator.py:135 | `b ** -n * b ** n == 1` for a non-zero `b` |
| Arithmetic.Power | src/calculator.py:120-135 | `TypeError` for the first non-number; then `ZeroDivisionError` for zero raised to a negative power and `TypeError` (`complex`) for a negative base raised to a fractional power; otherwise ok, with the exact power (`PowNat`) or its reciprocal for a whole exponent, zero for zero raised to a positive power, and `realPow` for a positive base raised to a fractional power |
| Arithmetic.Sqrt | src/calculator.py:137-156 | `TypeError` for a non-number; `InvalidOperationError` exactly for a negative number; otherwise `math.sqrt(n)` |
| Arithmetic.Fact | src/calculator.py:177 | `math.factorial` is at least 1 |
| Arithmetic.FactMonotone | src/example_calculator.py:158-177 | the factorial grows with its argument and is at least the argument |
| Arithmetic.Factorial | src/calculator.py:158-177 | `TypeError`; then `InvalidOperationError` for a negative number, also a negative fraction; then for a float with a fractional part (not `IsWhole`, Python's `is_integer()`); ok exactly for a non-negative whole number, with its factorial |
| Arithmetic.FactorialRecurrence | src/example_calculator.py:158-177 | `factorial(0) == 1` and `factorial(n) == n * factorial(n - 1)` |
| Arithmetic.FactorialOfWholeFloat | src/example_calculator.py:175-177 | a whole-valued float such as `5.0` has the factorial of the int it equals |
| Statistics.SumBounds | src/example_calculator.py:409 | `Sum`, Python's `sum`, of `n` values between `lo` and `hi` lies between `n * lo` and `n * hi` |
| Statistics.Mean | src/calculator.py:391-409 | `InvalidOperationError` for an empty list; otherwise ok exactly when all are numbers, else `TypeError` for the first non-number; the mean times the length is the sum (`Sum`) |
| Statistics.MeanBounded | src/example_calculator.py:391-409 | the mean lies between any lower and upper bound of the numbers |
| Statistics.Insert | src/calculator.py:430 | inserting into a sorted list keeps it sorted and adds exactly that element |
| Statistics.SortAsc | src/calculator.py:430 | `sorted(xs)` is ascending and a permutation of `xs` |
| Statistics.SortingIsUnique | src/example_calculator.py:430 | two ascending permutations of the same values are equal |
| Statistics.MiddleOf | src/calculator.py:431-435 | on a sorted list, the result is at least the lower half of the values and at most the upper half; for an odd length it is one of the values |
| Statistics.Median | src/calculator.py:411-435 | `InvalidOperationError` for an empty list; `TypeError` for the first non-number; otherwise the middle of the sorted list, or the average of its two central values |
| Statistics.MedianBounded | src/example_calculator.py:411-435 | the median lies between any lower and upper bound of the numbers |
| Statistics.ModeIsUnique | src/example_calculator.py:460-463 | at most one position satisfies the mode's definition, so the tie-break decides |
| Statistics.CountFrequencies | src/calculator.py:456-458 | the dictionary holds exactly the values of the list, each with its number of occurrences; its keys are the first occurrences in list order |
| Statistics.FirstMostFrequent | src/calculator.py:460-463 | picks the position of the first key, in insertion order, whose count is the largest |
| Statistics.Mode | src/calculator.py:437-463 | `InvalidOperationError` for an empty list; `TypeError` for the first non-number; otherwise the element at the mode's position, the first of any tied values |
| Calc.Calculator.constructor | src/calculator.py:40-43 | memory starts at 0 and the chain is unset |
| Calc.Calculator.MemoryStore | src/calculator.py:181-192 | a number replaces the memory; a non-number raises `TypeError` and leaves it; the chain is untouched |
| Calc.Calculator.MemoryRecall | src/calculator.py:194-201 | returns the memory |
| Calc.Calculator.MemoryAdd | src/calculator.py:203-214 | a number is added to the memory; a non-number raises `TypeError` and leaves it; the chain is untouched |
| Calc.Calculator.MemorySubtract | src/calculator.py:216-227 | a number is subtracted from the memory; a non-number raises `TypeError` and leaves it; the chain is untouched |
| Calc.Calculator.MemoryClear | src/calculator.py:229-231 | the memory becomes 0; the chain is untouched |
| Calc.Calculator.EnsureChainInitialized | src/calculator.py:493-501 | fails with `InvalidOperationError` exactly when the chain is unset |
| Calc.Calculator.Chain | src/calculator.py:235-250 | a number starts the chain at its value and returns the calculator itself; a non-number raises `TypeError` and leaves the chain; memory untouched |
| Calc.Calculator.ChainAdd | src/calculator.py:252-269 | unset chain first, then `TypeError`; otherwise the accumulator grows by the value and the calculator itself is returned; a failed call changes nothing |
| Calc.Calculator.ChainSubtract | src/calculator.py:271-288 | as `chain_add`, with the value subtracted |
| Calc.Calculator.ChainMultiply | src/calculator.py:290-307 | as `chain_add`, with the accumulator multiplied by the value |
| Calc.Calculator.ChainDivide | src/calculator.py:309-329 | unset chain, then `TypeError`, then `DivisionByZeroError` exactly for zero; otherwise the new accumulator times the value gives the old one |
| Calc.Calculator.ChainPower | src/calculator.py:331-348 | unset chain, then `TypeError`, then `ZeroDivisionError` for a zero accumulator raised to a negative power, with the chain kept; otherwise the accumulator becomes its `**` power wherever that is real: exact for a whole exponent, zero for a zero accumulator and a positive exponent |
| Calc.Calculator.GetResult | src/calculator.py:350-361 | the accumulator, or `InvalidOperationError` when the chain is unset |
| Calc.Calculator.ResetChain | src/calculator.py:363-365 | unsets the chain, whatever its state; memory untouched |
| Examples.ChainScenario | tests/test_example_calculator.py:191-201 | `chain(10).chain_add(5).chain_multiply(2).chain_subtract(10).chain_divide(4).get_result() == 5.0` |
| Examples.ChainPowerScenario | tests/test_example_calculator.py:203-206 | `chain(2).chain_power(3).chain_add(2).get_result() == 10` |
| Examples.ChainPowerOfZeroScenario | src/calculator.py:347 | `chain(0).chain_power(0.5).get_result() == 0.0` |
| Examples.ChainResetScenario | tests/test_example_calculator.py:208-213 | after `reset_chain()` a new chain starts from its own initial value |
| Examples.NeverStartedScenario | src/calculator.py:252-361 | on a chain never started, `chain_add`, `chain_subtract`, `chain_multiply`, `chain_divide`, `chain_power` and `get_result` all raise `InvalidOperationError`, even with a non-number or zero argument |
| Examples.AfterResetScenario | src/calculator.py:252-365 | after `reset_chain()`, the same six calls all raise `InvalidOperationError` again |
| Examples.MemoryScenario | tests/test_example_calculator.py:156-181 | memory starts at 0; store 10 then add 5 gives 15; store 10 then subtract 3 gives 7; clear gives 0 |
| Examples.MemoryTypeErrorScenario | src/calculator.py:203-214 | a rejected `memory_add` leaves the stored value |
| Examples.DivideExamples | tests/test_example_calculator.py:71-87 | `divide(7, 2) == 3.5`, `divide(-10, 2) == -5`, `divide(10, 0)` raises `DivisionByZeroError` |
| Examples.ComplexCalculation | tests/test_example_calculator.py:324-332 | `(10 + 5) * 2 - 8 / 4 == 28` |
| Examples.AddTypeErrors | tests/test_example_calculator.py:223-238 | `add` with a string, `None`, a list or a dict raises `TypeError` |
| Examples.FactorialExamples | tests/test_example_calculator.py:129-146 | `factorial` of 0, 1, 5 and 10; -1 and 3.5 are refused |
| Examples.PowerExamples | tests/test_example_calculator.py:97-106 | `power(2, 3) == 8`, `power(10, 0) == 1`, `power(2, -1) == 0.5`, `power(4, -2) == 0.0625` |
| Examples.PowerEdgeCases | src/calculator.py:134-135 | `power(0, -1)` raises `ZeroDivisionError`, `power(-8, 0.5)` raises `TypeError`, a non-number fails first, and `power(0, 0.5) == 0.0` |
| Examples.SqrtErrors | tests/test_example_calculator.py:119-127 | `sqrt(-1)` raises `InvalidOperationError`; `sqrt(0)` succeeds |
| Examples.MeanExamples | tests/test_example_calculator.py:282-291 | `mean([1, 2, 3, 4, 5]) == 3`, `mean([10, 20]) == 15`, `mean([])` raises |
| Examples.MedianOfEven | tests/test_example_calculator.py:293-297 | `median([1, 2, 3, 4]) == 2.5` |
| Examples.MedianOfOdd | src/calculator.py:430-435 | `median([3, 1, 2]) == 2`: the list is sorted first |
| Examples.MedianEdgeCases | src/calculator.py:425-435 | `median([5]) == 5`; `median([])` raises `InvalidOperationError` |
| Examples.ModeOfRepeated | tests/test_example_calculator.py:301 | `mode([1, 2, 2, 3, 3, 3]) == 3` |
| Examples.ModeOfTie | tests/test_example_calculator.py:302 | `mode([1, 1, 2, 2]) == 1`: the first tied value, one of the two the test allows |
| Examples.ModeOfSingle | tests/test_example_calculator.py:303 | `mode([5]) == 5` |

## Left out

- Floating point: ints and floats are modelled as mathematical integers and
  reals. Rounding, overflow, `inf` and `nan` are not modelled, so
  `float(a + b)` is the exact sum. The special-float tests in
  `tests/test_example_calculator.py` are therefore not covered.
- `bool` is a subclass of `int` in Python, so `True` passes validation. Values
  here are a tagged union with no boolean case.
- Error messages: only the error kind, and for `InvalidOperationError` which
  rule it reports, are modelled. The message text is not.
- `get_pi` and `get_e` only return `math.pi` and `math.e`, which are
  floating-point constants.
- Arithmetic.Sqrt: does not model the value of `math.sqrt`, which is host
  floating-point code passed in as `mathSqrt`.
- Arithmetic.Power: does not model `OverflowError` for a result outside the
  float range. The value of a positive base raised to a fractional power comes
  from the parameter `realPow`, so `power(4, 0.5) == 2` is not stated.
- Calc.Calculator.ChainPower: a negative accumulator raised to a fractional
  power makes the accumulator a complex number in Python. The model holds reals
  only and stores `realPow`'s value there instead. The positive-base case and
  overflow have the same gaps as `Arithmetic.Power`.
- Calc.Calculator.ChainDivide: states the quotient through multiplication
  (`new * value == old`) rather than as `old / value`. This is the same value
  for a non-zero divisor.
- Statistics.Median: returns a real. For an odd-length list Python returns the
  middle element itself, which may be an `int`. The model keeps its value, not
  its type.
- Statistics.Mode: the dictionary is a `map` from the numeric value to its
  count, plus the list of first-occurrence positions in insertion order.
  Python's dict compares keys numerically too (`1 == 1.0`), and the key it keeps
  is the first object inserted. `max` over the counts is one loop over the
  keys. The list comprehension followed by `[0]` is a second loop that stops at
  the first key with the largest count.
- The chain methods return the calculator itself. Python's fluent calls
  (`calc.chain(1).chain_add(2)`) become one call per line on the returned
  object.
- `docs/conf.py` and `tests/test_setup.py` are build and test configuration,
  not behaviour of the calculator.
