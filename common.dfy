/** Small numeric helpers shared by the controller and the input device:
    Python's `max(lo, min(x, hi))` clamp, `abs`, `int()` on a float and `round(x, 1)`,
    all on exact reals. */
module Common {

  datatype Option<+T> = None | Some(value: T)

  function Min(a: real, b: real): real { if b < a then b else a }

  function Max(a: real, b: real): real { if b > a then b else a }

  function Abs(x: real): (r: real)
    ensures r >= 0.0
    ensures r == x || r == -x
  {
    if x < 0.0 then -x else x
  }

  /** `max(lo, min(x, hi))`: the clamp every setter and shaping step of the controller uses. */
  function Clamp(lo: real, hi: real, x: real): (r: real)
    ensures lo <= hi ==> lo <= r <= hi
    ensures lo <= x <= hi ==> r == x
    ensures r >= lo
  {
    Max(lo, Min(x, hi))
  }

  lemma ClampIdempotent(lo: real, hi: real, x: real)
    requires lo <= hi
    ensures Clamp(lo, hi, Clamp(lo, hi, x)) == Clamp(lo, hi, x)
  {
  }

  /** Python's `int(x)` on a float: truncation toward zero (not Dafny's floor). */
  function Trunc(x: real): (n: int)
    ensures x >= 0.0 ==> 0 <= n && n as real <= x < n as real + 1.0
    ensures x < 0.0 ==> n <= 0 && n as real - 1.0 < x <= n as real
  {
    if x >= 0.0 then x.Floor else -((-x).Floor)
  }

  /** Round to the nearest integer, ties to the even neighbour (Python's `round`). */
  function RoundHalfEven(y: real): (n: int)
    ensures y - 0.5 <= n as real <= y + 0.5
  {
    var f := y.Floor;
    var d := y - f as real;
    if d < 0.5 then f
    else if d > 0.5 then f + 1
    else if f % 2 == 0 then f else f + 1
  }

  /** `round(x, 1)` on an exact real: the nearest multiple of 0.1. */
  function Round1(x: real): (r: real)
    ensures x - 0.05 <= r <= x + 0.05
    ensures 0.0 <= x <= 180.0 ==> 0.0 <= r <= 180.0
  {
    var n := RoundHalfEven(x * 10.0);
    assert 0.0 <= x ==> 0 <= n by {
      if 0.0 <= x { assert (x * 10.0).Floor >= 0; }
    }
    assert x <= 180.0 ==> n <= 1800;
    n as real / 10.0
  }
}
