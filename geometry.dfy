/** The play field and the rectangle tests the collision resolver uses. */
module Geometry {

  /** The canvas is 800 by 400 pixels; y grows downwards. */
  const CANVAS_WIDTH: real := 800.0
  const CANVAS_HEIGHT: real := 400.0

  /** Obstacle hit boxes lose this many pixels on their right and bottom edges. */
  const HIT_INSET: real := 5.0

  /** An axis-aligned box: top-left corner, width and height. */
  datatype Rect = Rect(x: real, y: real, w: real, h: real)

  /** Exact axis-aligned overlap; touching edges do not overlap. */
  predicate Overlaps(a: Rect, b: Rect)
  {
    a.x < b.x + b.w && a.x + a.w > b.x &&
    a.y < b.y + b.h && a.y + a.h > b.y
  }

  /** The box with `m` pixels taken off its right and bottom edges. */
  function Shrink(r: Rect, m: real): Rect
  {
    r.(w := r.w - m, h := r.h - m)
  }

  /** The forgiving overlap used against obstacles: both boxes shrunk by HIT_INSET. */
  predicate HitOverlaps(a: Rect, b: Rect)
  {
    Overlaps(Shrink(a, HIT_INSET), Shrink(b, HIT_INSET))
  }

  /** The forgiving test never reports a hit the exact test would not. */
  lemma HitImpliesOverlap(a: Rect, b: Rect)
    ensures HitOverlaps(a, b) ==> Overlaps(a, b)
  {
  }
}
