/** The two-step clamp the game applies to both paddles' top edge. */
module Clamping {
  import opened Settings

  /** Raises a negative `v` to 0, then lowers a value above `hi` to `hi`,
      in that order. */
  function Clamp(v: real, hi: real): (r: real)
    ensures r <= hi
    ensures 0.0 <= hi ==> 0.0 <= r
    ensures 0.0 <= v <= hi ==> r == v
    ensures v < 0.0 && 0.0 <= hi ==> r == 0.0
    ensures v > hi ==> r == hi
  {
    var raised := if v < 0.0 then 0.0 else v;
    if raised > hi then hi else raised
  }

  /** On a non-empty range the clamp picks the point of [0, hi] closest to `v`. */
  lemma ClampIsNearest(v: real, hi: real, u: real)
    requires 0.0 <= u <= hi
    ensures Abs(Clamp(v, hi) - v) <= Abs(u - v)
  {
  }

  /** Clamping never reorders two positions. */
  lemma ClampMonotone(v: real, v': real, hi: real)
    requires v <= v'
    ensures Clamp(v, hi) <= Clamp(v', hi)
  {
  }
}
