/** Numbers shared by the whole model: real-valued Math.max/Math.min, the
    clamp the controls use, and the constant pi.

    Every number of the viewer is a JavaScript double; here it is a
    mathematical real, so rounding, NaN and the infinities are not modelled. */
module Numbers {

  datatype Option<+T> = None | Some(value: T)

  /** Math.PI, written out to the precision of a double. */
  const PI: real := 3.141592653589793

  /** Math.max(a, b). */
  function Max(a: real, b: real): (r: real)
    ensures r >= a && r >= b
    ensures r == a || r == b
  {
    if a >= b then a else b
  }

  /** Math.min(a, b). */
  function Min(a: real, b: real): (r: real)
    ensures r <= a && r <= b
    ensures r == a || r == b
  {
    if a <= b then a else b
  }

  /** Math.max(a, b, c), the largest extent of a box. */
  function Max3(a: real, b: real, c: real): (r: real)
    ensures r >= a && r >= b && r >= c
    ensures r == a || r == b || r == c
  {
    Max(a, Max(b, c))
  }

  /** Math.max(lo, Math.min(hi, v)): the clamp written with the outer max,
      so that lo wins when the bounds cross. */
  function Clamp(v: real, lo: real, hi: real): (r: real)
    ensures lo <= hi ==> lo <= r <= hi
    ensures lo <= v <= hi ==> r == v
    ensures v < lo ==> r == lo
    ensures lo <= hi && hi < v ==> r == hi
    ensures hi < lo ==> r == lo
  {
    Max(lo, Min(hi, v))
  }

  /** Clamping keeps the order of its inputs. */
  lemma ClampMonotone(v1: real, v2: real, lo: real, hi: real)
    requires v1 <= v2
    ensures Clamp(v1, lo, hi) <= Clamp(v2, lo, hi)
  {
  }

  /** Math.max(...ys) over a non-empty list. */
  function MaxOf(ys: seq<real>): (r: real)
    requires |ys| > 0
    ensures r in ys
    ensures forall i :: 0 <= i < |ys| ==> ys[i] <= r
  {
    if |ys| == 1 then ys[0] else Max(ys[0], MaxOf(ys[1..]))
  }

  /** Math.min(...ys) over a non-empty list. */
  function MinOf(ys: seq<real>): (r: real)
    requires |ys| > 0
    ensures r in ys
    ensures forall i :: 0 <= i < |ys| ==> r <= ys[i]
  {
    if |ys| == 1 then ys[0] else Min(ys[0], MinOf(ys[1..]))
  }
}
