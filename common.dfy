/** Failure-compatible wrappers and the JavaScript "truthiness" rules the services branch on. */
module Common {

  datatype Option<+T> = None | Some(value: T) {
    function GetOr(default: T): T {
      match this
      case Some(v) => v
      case None => default
    }
  }

  /** Outcome of an operation that the source either returns from or throws out of. */
  datatype Result<+T, +E> = Ok(value: T) | Err(error: E) {
    predicate IsFailure() { Err? }
  }

  /** A number that is present and not 0 (the `if (x)` test on a number; NaN is not modelled here). */
  predicate TruthyReal(x: Option<real>)
  {
    x.Some? && x.value != 0.0
  }

  /** `x || fallback` on an optional number. */
  function OrReal(x: Option<real>, fallback: real): (r: real)
    ensures TruthyReal(x) ==> r == x.value
    ensures !TruthyReal(x) ==> r == fallback
  {
    if TruthyReal(x) then x.value else fallback
  }

  /** `s || fallback` on a string: the empty string is falsy. */
  function OrString(s: string, fallback: string): (r: string)
    ensures s != [] ==> r == s
    ensures s == [] ==> r == fallback
  {
    if s != [] then s else fallback
  }

  /** The default currency written by every `currency || "USD"`. */
  const DefaultCurrency: string := "USD"
}
