/** Small helpers shared by the game model: an optional value and the
    `Math.min` / `Math.max` of the source on integers and reals. */
module Util {

  /** A value that may be absent; `None` also stands for a JavaScript NaN. */
  datatype Option<T> = None | Some(value: T)

  function MinI(a: int, b: int): (r: int)
    ensures r <= a && r <= b && (r == a || r == b)
  {
    if a <= b then a else b
  }

  function MaxI(a: int, b: int): (r: int)
    ensures a <= r && b <= r && (r == a || r == b)
  {
    if a <= b then b else a
  }

  function MaxR(a: real, b: real): (r: real)
    ensures a <= r && b <= r && (r == a || r == b)
  {
    if a <= b then b else a
  }

  /** `Math.min(hi, Math.max(lo, v))`, the clamp the source writes out. */
  function Clamp(lo: real, hi: real, v: real): (r: real)
    requires lo <= hi
    ensures lo <= r <= hi
    ensures lo <= v <= hi ==> r == v
    ensures v < lo ==> r == lo
    ensures hi < v ==> r == hi
  {
    var atLeastLo := MaxR(lo, v);
    if atLeastLo <= hi then atLeastLo else hi
  }

  /** `Math.abs`. */
  function AbsR(a: real): (r: real)
    ensures 0.0 <= r && (r == a || r == -a)
  {
    if a < 0.0 then -a else a
  }
}
