/** Small shared vocabulary: an optional value (a TypeScript `T | null`)
    and the `Math.max(lo, Math.min(hi, x))` clamp every component uses. */
module Common {

  /** A value that may be absent, as a nullable ref or a `T | null` state. */
  datatype Option<T> = None | Some(value: T)

  function Max(a: real, b: real): real {
    if a >= b then a else b
  }

  function Min(a: real, b: real): real {
    if a <= b then a else b
  }

  /** `Math.max(lo, Math.min(hi, x))`, the app's clamp idiom. When
      the band is well formed the result is the point of [lo, hi] nearest x. */
  function Clamp(x: real, lo: real, hi: real): (r: real)
    ensures lo <= hi ==> lo <= r <= hi
    ensures lo <= x <= hi ==> r == x
    ensures lo <= hi && x <= lo ==> r == lo
    ensures lo <= hi && hi <= x ==> r == hi
  {
    Max(lo, Min(hi, x))
  }

  /** Clamping to a fixed band never reverses the order of two inputs. */
  lemma ClampMonotone(x: real, y: real, lo: real, hi: real)
    requires lo <= hi
    requires x <= y
    ensures Clamp(x, lo, hi) <= Clamp(y, lo, hi)
  {
  }

  function Abs(x: real): (r: real)
    ensures r >= 0.0
    ensures r == x || r == -x
  {
    if x < 0.0 then -x else x
  }
}
