/** Checked unsigned arithmetic and the dispatch errors it raises.

    The runtime's numeric types are fixed-width unsigned integers; `EnsureAdd`
    is the checked addition behind `ensure_add_assign`: it either yields the
    exact sum or fails with `Overflow`, and never wraps or saturates.
 */
module Arithmetic {

  /** Largest value of an unsigned 128-bit integer. */
  const U128_MAX: nat := 0xffff_ffff_ffff_ffff_ffff_ffff_ffff_ffff

  datatype ArithmeticError = Underflow | Overflow | DivisionByZero

  /** The error half of a dispatch result; only arithmetic failures arise here. */
  datatype DispatchError = Arithmetic(cause: ArithmeticError)

  /** `DispatchResult`: success carries no value. */
  datatype Outcome = Pass | Fail(error: DispatchError)

  datatype Result<T> = Ok(value: T) | Err(error: ArithmeticError)

  /** Checked addition of two numbers of a type whose largest value is `max`. */
  function EnsureAdd(a: nat, b: nat, max: nat): (r: Result<nat>)
    ensures r.Ok? <==> a + b <= max
    ensures r.Ok? ==> r.value == a + b && a <= r.value <= max
    ensures r.Err? ==> r.error == Overflow
  {
    if a + b <= max then Ok(a + b) else Err(Overflow)
  }
}
