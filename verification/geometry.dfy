/** Axis-aligned rectangles in design-space units, as the engine passes them to
    SDL (an `SDL_FRect`): the top-left corner `(x, y)` and the size `(w, h)`.
    The source's `float` fields are modelled as `real`: rounding is abstracted away. */
module Geometry {

  datatype Rect = Rect(x: real, y: real, w: real, h: real)

  /** The rectangle moved by `(dx, dy)`, size unchanged. */
  function Translate(r: Rect, dx: real, dy: real): Rect
  {
    r.(x := r.x + dx, y := r.y + dy)
  }

  /** Moving back by the opposite offset restores the rectangle. */
  lemma TranslateRoundTrip(r: Rect, dx: real, dy: real)
    ensures Translate(Translate(r, dx, dy), -dx, -dy) == r
  {
  }
}
