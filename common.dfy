/** Small helpers shared by every module: an optional value (a JavaScript value that may
    be `null` or `undefined`), `Math.min`/`Math.max` on exact reals, and subsequences. */
module Common {

  datatype Option<+T> = None | Some(value: T) {

    /** `x ?? default` */
    function GetOr(default: T): T {
      match this
      case Some(v) => v
      case None => default
    }
  }

  /** `Math.min(a, b)` */
  function Min(a: real, b: real): (r: real)
    ensures r <= a && r <= b
    ensures r == a || r == b
  {
    if a <= b then a else b
  }

  /** `Math.max(a, b)` */
  function Max(a: real, b: real): (r: real)
    ensures r >= a && r >= b
    ensures r == a || r == b
  {
    if a >= b then a else b
  }

  /** A non-negative amount scaled by a factor in [0, 1] stays between 0 and itself. */
  lemma ScaleWithinUnit(v: real, factor: real)
    requires 0.0 <= v && 0.0 <= factor <= 1.0
    ensures 0.0 <= v * factor <= v
  {
    assert v - v * factor == v * (1.0 - factor);
  }

  /** `r` is obtained from `s` by deleting elements, keeping the order of the rest. */
  predicate IsSubsequence<T(==)>(r: seq<T>, s: seq<T>)
    decreases |s|
  {
    if r == [] then true
    else if s == [] then false
    else if r[0] == s[0] then IsSubsequence(r[1..], s[1..])
    else IsSubsequence(r, s[1..])
  }
}
