/** The rectangle arithmetic of the sprites: Android's `RectF` (float bounds) and
    `Rect` (int frame slices), the centred and scaled box `getBounds` computes, and
    the per-axis clamp of `setPosition`. Floats are read as reals. */
module Geometry {

  /** `android.graphics.RectF`. */
  datatype RectF = RectF(left: real, top: real, right: real, bottom: real) {
    /** `RectF.width()`. */
    function Width(): real { right - left }
    /** `RectF.height()`. */
    function Height(): real { bottom - top }
  }

  /** `android.graphics.Rect`, used for the animation frame slices. */
  datatype Rect = Rect(left: int, top: int, right: int, bottom: int)

  /** `RectF.intersects(a, b)`: the two boxes overlap with positive area on both axes
      (touching edges do not count). */
  predicate Intersects(a: RectF, b: RectF) {
    a.left < b.right && b.left < a.right && a.top < b.bottom && b.top < a.bottom
  }

  /** Overlap does not depend on the order of the two boxes. */
  lemma IntersectsSymmetric(a: RectF, b: RectF)
    ensures Intersects(a, b) == Intersects(b, a)
  {
  }

  /** `RectF.contains(x, y)`: the box is not empty and the point lies in it, with the
      left and top edges included and the right and bottom edges excluded. */
  predicate Contains(r: RectF, x: real, y: real) {
    r.left < r.right && r.top < r.bottom && r.left <= x < r.right && r.top <= y < r.bottom
  }

  /** The box `getBounds` computes for a `w` by `h` bitmap drawn at `(x, y)`: first the
      unscaled box centred on the point; then, when `scale != 1`, each edge moved out
      by half the growth `(scale - 1)` of the width or height. */
  function ScaledBox(w: int, h: int, x: real, y: real, scale: real): RectF
  {
    var b := RectF(x - w as real / 2.0, y - h as real / 2.0, x + w as real / 2.0, y + h as real / 2.0);
    if scale != 1.0 then
      var dh := (b.right - b.left) * (scale - 1.0);
      var dv := (b.bottom - b.top) * (scale - 1.0);
      RectF(b.left - dh / 2.0, b.top - dv / 2.0, b.right + dh / 2.0, b.bottom + dv / 2.0)
    else
      b
  }

  /** The box is centred on the point and is the bitmap's size times the scale: its edges
      are the point plus or minus half the scaled size. */
  lemma ScaledBoxEdges(w: int, h: int, x: real, y: real, scale: real)
    ensures var r := ScaledBox(w, h, x, y, scale);
      r.left == x - w as real * scale / 2.0 && r.right == x + w as real * scale / 2.0 &&
      r.top == y - h as real * scale / 2.0 && r.bottom == y + h as real * scale / 2.0
    ensures var r := ScaledBox(w, h, x, y, scale);
      r.Width() == w as real * scale && r.Height() == h as real * scale
  {
    var wr, hr := w as real, h as real;
    assert wr * (scale - 1.0) == wr * scale - wr;
    assert hr * (scale - 1.0) == hr * scale - hr;
  }

  /** At scale 1 the box is exactly the bitmap's box around the point. */
  lemma UnscaledBox(w: int, h: int, x: real, y: real)
    ensures ScaledBox(w, h, x, y, 1.0) == RectF(x - w as real / 2.0, y - h as real / 2.0, x + w as real / 2.0, y + h as real / 2.0)
  {
  }

  /** The clamp `setPosition` applies on one axis: a sprite of extent `size` centred at
      `v` that would stick out before 0 is pulled in to `size / 2`, one that would
      stick out past `limit` is pulled back to `limit - size / 2`. */
  function ClampCentre(v: real, size: real, limit: int): real
  {
    if v - size / 2.0 < 0.0 then size / 2.0
    else if v + size / 2.0 > limit as real then limit as real - size / 2.0
    else v
  }

  /** A clamped extent that fits between 0 and `limit` lies there; one that already lay
      there is not moved; and the clamp only ever picks the point or one of the two limits. */
  lemma ClampCentreFits(v: real, size: real, limit: int)
    ensures var c := ClampCentre(v, size, limit);
      0.0 <= size <= limit as real ==> 0.0 <= c - size / 2.0 && c + size / 2.0 <= limit as real
    ensures size / 2.0 <= v && v + size / 2.0 <= limit as real ==> ClampCentre(v, size, limit) == v
    ensures var c := ClampCentre(v, size, limit);
      c == v || c == size / 2.0 || c == limit as real - size / 2.0
  {
  }

  /** A box placed with `ClampCentre` on an axis it fits on lies within that axis. */
  lemma ClampedBoxInside(w: int, h: int, px: real, py: real, cx: real, cy: real, scale: real, width: int, height: int)
    requires cx == ClampCentre(px, w as real * scale, width)
    requires cy == ClampCentre(py, h as real * scale, height)
    ensures var r := ScaledBox(w, h, cx, cy, scale);
      (0.0 <= w as real * scale <= width as real ==> 0.0 <= r.left && r.right <= width as real) &&
      (0.0 <= h as real * scale <= height as real ==> 0.0 <= r.top && r.bottom <= height as real)
  {
    ClampCentreFits(px, w as real * scale, width);
    ClampCentreFits(py, h as real * scale, height);
    ScaledBoxEdges(w, h, cx, cy, scale);
  }
}

