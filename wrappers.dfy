/** Optional values, standing for the `undefined`/`null` cases of the front end's records. */
module Wrappers {

  datatype Option<T> = None | Some(value: T)
  {
    /** The value when present, otherwise `d` (the `x ?? d` idiom). */
    function GetOr(d: T): T
    {
      match this
      case Some(v) => v
      case None => d
    }
  }

  /** The outcome of a handler that either produces a value or stops with a reason. */
  datatype Result<T, E> = Ok(value: T) | Err(error: E)

  /**
   * JavaScript truthiness of an optional number: `undefined`, `null` and `0` are all falsy.
   * Record identifiers are checked this way (`d.productoId ? … : …`).
   */
  predicate Truthy(o: Option<int>)
  {
    o.Some? && o.value != 0
  }

  /** `a || b` on optional numbers: `a` when it is truthy, otherwise `b`. */
  function OrElse(a: Option<int>, b: Option<int>): (r: Option<int>)
    ensures Truthy(a) ==> r == a
    ensures !Truthy(a) ==> r == b
  {
    if Truthy(a) then a else b
  }

  /** `x || null` on an optional number: a falsy value becomes `null`. */
  function OrNull(o: Option<int>): (r: Option<int>)
    ensures r.Some? <==> Truthy(o)
    ensures r.Some? ==> r == o
  {
    if Truthy(o) then o else None
  }

  /** `Number(x) || d`: a missing or zero number falls back to `d`. */
  function NumberOr(o: Option<int>, d: int): (r: int)
    ensures Truthy(o) ==> r == o.value
    ensures !Truthy(o) ==> r == d
  {
    if Truthy(o) then o.value else d
  }
}
