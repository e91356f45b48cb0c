/**
 * The state a `Calculator` object keeps between calls: the memory register and the
 * chain accumulator. The stateless operations are in modules Arithmetic and Statistics.
 *
 * Every method validates before it changes anything, so a call that fails leaves both
 * fields as they were. Memory operations never touch the chain and chain operations
 * never touch the memory.
 */
module Calc {
  import opened Numbers
  import Arithmetic

  class Calculator {
    /** The memory register; never unset. */
    var memory: real
    /** The chain accumulator: `None` until `chain()` is called and after `reset_chain()`. */
    var chainValue: Option<real>

    /** `Calculator()`: memory 0, chain unset. */
    constructor ()
      ensures memory == 0.0 && chainValue == None
    {
      memory := 0.0;
      chainValue := None;
    }

    // Memory operations

    /** `memory_store(value)` */
    method MemoryStore(value: Val) returns (o: Outcome)
      modifies this
      ensures o == Pass <==> value.IsNumber()
      ensures !value.IsNumber() ==> o == Fail(TypeErr(value.TypeName()))
      ensures memory == if value.IsNumber() then value.Real() else old(memory)
      ensures chainValue == old(chainValue)
    {
      var valid := ValidateNumber(value);
      if valid.Fail? {
        return valid;
      }
      memory := value.Real();
      o := Pass;
    }

    /** `memory_recall()` */
    method MemoryRecall() returns (r: real)
      ensures r == memory
    {
      r := memory;
    }

    /** `memory_add(value)` */
    method MemoryAdd(value: Val) returns (o: Outcome)
      modifies this
      ensures o == Pass <==> value.IsNumber()
      ensures !value.IsNumber() ==> o == Fail(TypeErr(value.TypeName()))
      ensures memory == if value.IsNumber() then old(memory) + value.Real() else old(memory)
      ensures chainValue == old(chainValue)
    {
      var valid := ValidateNumber(value);
      if valid.Fail? {
        return valid;
      }
      memory := memory + value.Real();
      o := Pass;
    }

    /** `memory_subtract(value)` */
    method MemorySubtract(value: Val) returns (o: Outcome)
      modifies this
      ensures o == Pass <==> value.IsNumber()
      ensures !value.IsNumber() ==> o == Fail(TypeErr(value.TypeName()))
      ensures memory == if value.IsNumber() then old(memory) - value.Real() else old(memory)
      ensures chainValue == old(chainValue)
    {
      var valid := ValidateNumber(value);
      if valid.Fail? {
        return valid;
      }
      memory := memory - value.Real();
      o := Pass;
    }

    /** `memory_clear()` */
    method MemoryClear()
      modifies this
      ensures memory == 0.0
      ensures chainValue == old(chainValue)
    {
      memory := 0.0;
    }

    // Chain operations

    /** `_ensure_chain_initialized()` */
    method EnsureChainInitialized() returns (o: Outcome)
      ensures o == Pass <==> chainValue.Some?
      ensures chainValue.None? ==> o == Fail(InvalidOperation(ChainNotInitialized))
    {
      if chainValue.None? {
        return Fail(InvalidOperation(ChainNotInitialized));
      }
      o := Pass;
    }

    /** `chain(initial)`: starts (or restarts) the chain and returns the calculator itself. */
    method Chain(initial: Val) returns (r: Result<Calculator>)
      modifies this
      ensures r.Ok? <==> initial.IsNumber()
      ensures !initial.IsNumber() ==> r == Err(TypeErr(initial.TypeName()))
      ensures r.Ok? ==> r.value == this && chainValue == Some(initial.Real())
      ensures r.Err? ==> chainValue == old(chainValue)
      ensures memory == old(memory)
    {
      var valid := ValidateNumber(initial);
      if valid.Fail? {
        return Err(valid.error);
      }
      chainValue := Some(initial.Real());
      r := Ok(this);
    }

    /** `chain_add(value)`: an unset chain is reported before the argument is looked at. */
    method ChainAdd(value: Val) returns (r: Result<Calculator>)
      modifies this
      ensures old(chainValue).None? ==> r == Err(InvalidOperation(ChainNotInitialized))
      ensures old(chainValue).Some? && !value.IsNumber() ==> r == Err(TypeErr(value.TypeName()))
      ensures r.Ok? <==> old(chainValue).Some? && value.IsNumber()
      ensures r.Ok? ==> r.value == this && chainValue == Some(old(chainValue).value + value.Real())
      ensures r.Err? ==> chainValue == old(chainValue)
      ensures memory == old(memory)
    {
      var unset := EnsureChainInitialized();
      if unset.Fail? {
        return Err(unset.error);
      }
      var valid := ValidateNumber(value);
      if valid.Fail? {
        return Err(valid.error);
      }
      var current := chainValue.value;
      chainValue := Some(current + value.Real());
      r := Ok(this);
    }

    /** `chain_subtract(value)` */
    method ChainSubtract(value: Val) returns (r: Result<Calculator>)
      modifies this
      ensures old(chainValue).None? ==> r == Err(InvalidOperation(ChainNotInitialized))
      ensures old(chainValue).Some? && !value.IsNumber() ==> r == Err(TypeErr(value.TypeName()))
      ensures r.Ok? <==> old(chainValue).Some? && value.IsNumber()
      ensures r.Ok? ==> r.value == this && chainValue == Some(old(chainValue).value - value.Real())
      ensures r.Err? ==> chainValue == old(chainValue)
      ensures memory == old(memory)
    {
      var unset := EnsureChainInitialized();
      if unset.Fail? {
        return Err(unset.error);
      }
      var valid := ValidateNumber(value);
      if valid.Fail? {
        return Err(valid.error);
      }
      var current := chainValue.value;
      chainValue := Some(current - value.Real());
      r := Ok(this);
    }

    /** `chain_multiply(value)` */
    method ChainMultiply(value: Val) returns (r: Result<Calculator>)
      modifies this
      ensures old(chainValue).None? ==> r == Err(InvalidOperation(ChainNotInitialized))
      ensures old(chainValue).Some? && !value.IsNumber() ==> r == Err(TypeErr(value.TypeName()))
      ensures r.Ok? <==> old(chainValue).Some? && value.IsNumber()
      ensures r.Ok? ==> r.value == this && chainValue == Some(old(chainValue).value * value.Real())
      ensures r.Err? ==> chainValue == old(chainValue)
      ensures memory == old(memory)
    {
      var unset := EnsureChainInitialized();
      if unset.Fail? {
        return Err(unset.error);
      }
      var valid := ValidateNumber(value);
      if valid.Fail? {
        return Err(valid.error);
      }
      var current := chainValue.value;
      chainValue := Some(current * value.Real());
      r := Ok(this);
      assert chainValue.value == old(chainValue).value * value.Real();
    }

    /** `chain_divide(value)`: unset chain first, then the argument's type, then a zero divisor. */
    method ChainDivide(value: Val) returns (r: Result<Calculator>)
      modifies this
      ensures old(chainValue).None? ==> r == Err(InvalidOperation(ChainNotInitialized))
      ensures old(chainValue).Some? && !value.IsNumber() ==> r == Err(TypeErr(value.TypeName()))
      ensures old(chainValue).Some? && value.IsNumber() && value.Real() == 0.0 ==> r == Err(DivisionByZero)
      ensures r.Ok? <==> old(chainValue).Some? && value.IsNumber() && value.Real() != 0.0
      ensures r.Ok? ==> r.value == this && chainValue.Some? &&
                        chainValue.value * value.Real() == old(chainValue).value
      ensures r.Err? ==> chainValue == old(chainValue)
      ensures memory == old(memory)
    {
      var unset := EnsureChainInitialized();
      if unset.Fail? {
        return Err(unset.error);
      }
      var valid := ValidateNumber(value);
      if valid.Fail? {
        return Err(valid.error);
      }
      if value.Real() == 0.0 {
        return Err(DivisionByZero);
      }
      var current := chainValue.value;
      chainValue := Some(current / value.Real());
      r := Ok(this);
    }

    /** `chain_power(value)`: `self.chain_value **= value`. Zero raised to a negative
        power escapes as `ZeroDivisionError` and leaves the chain as it was. A negative
        accumulator raised to a fractional power becomes a complex number in Python; the
        model keeps reals only and stores the host's `realPow` value instead. */
    method ChainPower(value: Val, realPow: (real, real) -> real) returns (r: Result<Calculator>)
      modifies this
      ensures old(chainValue).None? ==> r == Err(InvalidOperation(ChainNotInitialized))
      ensures old(chainValue).Some? && !value.IsNumber() ==> r == Err(TypeErr(value.TypeName()))
      ensures old(chainValue).Some? && value.IsNumber() && old(chainValue).value == 0.0 && value.Real() < 0.0 ==>
                r == Err(ZeroDivision)
      ensures r.Ok? <==> && old(chainValue).Some? && value.IsNumber()
                         && !(old(chainValue).value == 0.0 && value.Real() < 0.0)
      ensures r.Ok? ==> r.value == this && chainValue.Some?
      ensures r.Ok? && Arithmetic.IsNatural(value.Real()) ==>
                chainValue.value == Arithmetic.PowNat(old(chainValue).value, value.Real().Floor)
      ensures r.Ok? && Arithmetic.IsWhole(value.Real()) && value.Real() < 0.0 ==>
                chainValue.value * Arithmetic.PowNat(old(chainValue).value, (-value.Real()).Floor) == 1.0
      ensures r.Ok? && Arithmetic.Pow(old(chainValue).value, value.Real(), realPow).PowerOf? ==>
                chainValue == Some(Arithmetic.Pow(old(chainValue).value, value.Real(), realPow).value)
      ensures r.Ok? && old(chainValue).value == 0.0 && value.Real() > 0.0 ==> chainValue == Some(0.0)
      ensures r.Ok? && !Arithmetic.IsWhole(value.Real()) && old(chainValue).value != 0.0 ==>
                chainValue.value == realPow(old(chainValue).value, value.Real())
      ensures r.Err? ==> chainValue == old(chainValue)
      ensures memory == old(memory)
    {
      var unset := EnsureChainInitialized();
      if unset.Fail? {
        return Err(unset.error);
      }
      var valid := ValidateNumber(value);
      if valid.Fail? {
        return Err(valid.error);
      }
      var current := chainValue.value;
      var powered := Arithmetic.Pow(current, value.Real(), realPow);
      if powered.ZeroToNegativePower? {
        return Err(ZeroDivision);
      }
      chainValue := Some(if powered.PowerOf? then powered.value else realPow(current, value.Real()));
      r := Ok(this);
    }

    /** `get_result()` */
    method GetResult() returns (r: Result<real>)
      ensures chainValue.None? ==> r == Err(InvalidOperation(ChainNotInitialized))
      ensures chainValue.Some? ==> r == Ok(chainValue.value)
    {
      var unset := EnsureChainInitialized();
      if unset.Fail? {
        return Err(unset.error);
      }
      r := Ok(chainValue.value);
    }

    /** `reset_chain()`: never fails, whatever the chain's state. */
    method ResetChain()
      modifies this
      ensures chainValue == None
      ensures memory == old(memory)
    {
      chainValue := None;
    }
  }
}
