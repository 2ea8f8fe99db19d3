/** The scaling transform of src/scaling.cpp: maps a "logical" rectangle to the
    destination rectangle drawn on the window, under a process-wide scale mode.
    The static `s_mode` becomes a field of a `Scaling` object, and the window size
    that the source reads with `SDL_GetWindowSize` is passed in as `(ww, wh)`.
    `float` is modelled as `real`: rounding is abstracted away. */
module Scaling {
  import opened Geometry
  import Collision

  datatype ScaleMode = Pixel | Proportional

  class Scaling {
    var mode: ScaleMode

    /** The static initialiser of `s_mode`. */
    constructor ()
      ensures mode == Pixel
    {
      mode := Pixel;
    }

    /** `setMode(m)`: every later `compute` uses `m`. */
    method SetMode(m: ScaleMode)
      modifies this
      ensures mode == m
    {
      mode := m;
    }

    /** `mode()`: the mode most recently set, or `Pixel`. */
    method Mode() returns (m: ScaleMode)
      ensures m == mode
    {
      m := mode;
    }

    /** `compute(logical, win)` for a window of `ww` by `wh` pixels. In `Pixel` mode
        the logical rectangle is drawn as it is; in `Proportional` mode its width and
        height are fractions of the window's, while its position stays in pixels.
        Being a function of the object, it cannot change the mode. */
    function Compute(logical: Rect, ww: int, wh: int): (out: Rect)
      reads this
      ensures mode == Pixel ==> out == logical
      ensures mode == Proportional ==> out.x == logical.x && out.y == logical.y
      ensures mode == Proportional ==> out.w == logical.w * (ww as real) && out.h == logical.h * (wh as real)
    {
      if mode == Pixel then logical
      else logical.(w := logical.w * (ww as real), h := logical.h * (wh as real))
    }
  }

  /** In `Pixel` mode the window size plays no part. */
  lemma PixelIgnoresWindow(s: Scaling, r: Rect, ww1: int, wh1: int, ww2: int, wh2: int)
    requires s.mode == Pixel
    ensures s.Compute(r, ww1, wh1) == s.Compute(r, ww2, wh2) == r
  {
  }

  /** In `Proportional` mode a zero window width (height) gives a zero output
      width (height). */
  lemma ZeroWindowCollapses(s: Scaling, r: Rect, ww: int, wh: int)
    requires s.mode == Proportional
    ensures ww == 0 ==> s.Compute(r, ww, wh).w == 0.0
    ensures wh == 0 ==> s.Compute(r, ww, wh).h == 0.0
  {
  }

  /** In `Proportional` mode a logical size of `1 x 1` covers the whole window, and
      non-negative fractions of a window of non-negative size stay non-negative. */
  lemma ProportionalFractions(s: Scaling, r: Rect, ww: int, wh: int)
    requires s.mode == Proportional
    ensures r.w == 1.0 ==> s.Compute(r, ww, wh).w == ww as real
    ensures r.h == 1.0 ==> s.Compute(r, ww, wh).h == wh as real
    ensures r.w >= 0.0 && ww >= 0 ==> s.Compute(r, ww, wh).w >= 0.0
    ensures r.h >= 0.0 && wh >= 0 ==> s.Compute(r, ww, wh).h >= 0.0
  {
  }

  /** Over a window of non-zero size, no information is lost: two logical
      rectangles with the same destination are the same rectangle, in either mode. */
  lemma ComputeInjective(s: Scaling, a: Rect, b: Rect, ww: int, wh: int)
    requires ww != 0 && wh != 0
    requires s.Compute(a, ww, wh) == s.Compute(b, ww, wh)
    ensures a == b
  {
  }

  /** In `Pixel` mode, destination rectangles overlap exactly when the logical
      ones do. */
  lemma PixelPreservesOverlap(s: Scaling, a: Rect, b: Rect, ww: int, wh: int)
    requires s.mode == Pixel
    ensures Collision.Intersects(s.Compute(a, ww, wh), s.Compute(b, ww, wh)) <==> Collision.Intersects(a, b)
  {
  }

  /** A caller that sets the mode and reads it back gets the mode it set. */
  method SetThenReadMode(s: Scaling, m: ScaleMode) returns (r: ScaleMode)
    modifies s
    ensures r == m
  {
    s.SetMode(m);
    r := s.Mode();
  }
}
