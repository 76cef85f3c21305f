/** Values that JavaScript may leave null or undefined, and the settled result of an awaited call. */
module Outcomes {

  /** A JSON value that may be missing: `None` stands for both `null` and `undefined`. */
  datatype Option<+T> = None | Some(value: T) {

    /** The value if present, else `fallback`: JavaScript's logical or on an object or array, which is truthy whenever present. */
    function GetOr(fallback: T): T {
      match this
      case Some(v) => v
      case None => fallback
    }
  }

  /** How one awaited upstream call settles: resolved with a value, or rejected. */
  datatype Outcome<+T> = Ok(value: T) | Fail

  /** Joining two awaited calls: resolves with both values, or rejects if either call rejects. */
  function Both<A, B>(a: Outcome<A>, b: Outcome<B>): (r: Outcome<(A, B)>)
    ensures r.Ok? <==> a.Ok? && b.Ok?
    ensures r.Ok? ==> r.value.0 == a.value && r.value.1 == b.value
  {
    if a.Ok? && b.Ok? then Ok((a.value, b.value)) else Fail
  }
}
