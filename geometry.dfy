/**
 * The playfield and the clamp every entity applies to keep itself on it.  The
 * screen size comes from the renderer, which is not part of this model, so it
 * is a value passed in.
 */
module Geometry {

  /** SCREEN_WIDTH and SCREEN_HEIGHT as the renderer reports them. */
  datatype Screen = Screen(width: real, height: real)

  /** A screen large enough to hold the 80x80 player plane. */
  predicate Playable(screen: Screen)
  {
    screen.width >= 80.0 && screen.height >= 80.0
  }

  /** `Math.max(0, Math.min(v, hi))`: `v` pulled into [0, hi] whenever that range exists. */
  function Clamp(v: real, hi: real): (r: real)
    ensures 0.0 <= r
    ensures 0.0 <= hi ==> r <= hi
    ensures 0.0 <= v <= hi ==> r == v
    ensures v < 0.0 ==> r == 0.0
    ensures 0.0 <= hi < v ==> r == hi
  {
    var m := if v < hi then v else hi;
    if 0.0 < m then m else 0.0
  }

  /**
   * The plane's coordinate along one axis when a finger at `f` drags it: the
   * plane is centred on the finger, then clamped so it stays on the screen.
   */
  function FingerCentred(f: real, size: real, limit: real): (p: real)
    ensures 0.0 <= p
    ensures size <= limit ==> p <= limit - size
    ensures 0.0 <= f - size / 2.0 <= limit - size ==> p == f - size / 2.0
  {
    Clamp(f - size / 2.0, limit - size)
  }

  /**
   * A finger on the screen is still within the 30-pixel touch tolerance of the
   * plane after the plane follows it, even where the clamp stops the plane.
   */
  lemma FingerStaysOnPlane(f: real, size: real, limit: real)
    requires 0.0 <= size <= limit
    requires 0.0 <= f <= limit
    ensures FingerCentred(f, size, limit) - 30.0 <= f <= FingerCentred(f, size, limit) + size + 30.0
  {
  }
}
