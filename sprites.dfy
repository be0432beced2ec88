/** A sprite of the game (`Sprite` and its subclass `AnimatedSprite`, which is the
    only kind the game instantiates): position, speed, scale, drag flags, and the
    strip of animation frames cut from its bitmap. The older and newer copies of both
    classes are the same code, except that the newer `AnimatedSprite` can be made
    invisible (for blinking) and then draws nothing. */
module Sprites {
  import opened Java
  import opened Geometry

  /** `SpriteType`. */
  datatype SpriteType = PLAYER | ENEMY | BULLET | EXPLOSION

  /** The only facts about a decoded bitmap that the game uses. */
  datatype Bitmap = Bitmap(width: int, height: int)

  /** A frame count; the code divides by it, so zero would throw. */
  type FrameCount = n: int | n > 0 witness 1

  /** The milliseconds one frame is shown: a thousand over the frame rate, truncated
      (read over the reals). A rate of 0 divides by zero in floating point and gives
      infinity, which the cast to `long` turns into its largest value. */
  function FrameMillis(framesPerSecond: int): (ms: Long)
    ensures framesPerSecond > 0 ==> ms == 1000 / framesPerSecond
    ensures framesPerSecond == 0 ==> ms == LONG_MAX
  {
    if framesPerSecond == 0 then LONG_MAX
    else
      var q := 1000.0 / framesPerSecond as real;
      assert framesPerSecond as real * q == 1000.0;
      var t := Trunc(q);
      assert -1000 <= t <= 1000 by { FrameMillisRange(framesPerSecond, q, t); }
      assert framesPerSecond > 0 ==> t == 1000 / framesPerSecond by {
        if framesPerSecond > 0 { TruncQuotient(framesPerSecond, q, t); }
      }
      t
  }

  lemma FrameMillisRange(f: int, q: real, t: int)
    requires f != 0 && f as real * q == 1000.0
    requires 0.0 <= q ==> t as real <= q < t as real + 1.0
    requires q < 0.0 ==> t as real - 1.0 < q <= t as real
    ensures -1000 <= t <= 1000
  {
    if f > 0 {
      assert q >= 0.0 && q <= 1000.0;
    } else {
      assert q <= 0.0 && q >= -1000.0;
    }
  }

  lemma TruncQuotient(f: int, q: real, t: int)
    requires f > 0 && f as real * q == 1000.0
    requires t as real <= q < t as real + 1.0
    ensures t == 1000 / f
  {
    TruncProducts(f, q, t);
    DivUnique(1000, f, t);
  }

  /** From `t <= 1000 / f < t + 1` over the reals to the same bounds on integer products. */
  lemma TruncProducts(f: int, q: real, t: int)
    requires f > 0 && f as real * q == 1000.0
    requires t as real <= q < t as real + 1.0
    ensures t * f <= 1000 < (t + 1) * f
  {
    ScaleLower(t, q, f, 1000.0);
    ScaleUpper(t + 1, q, f, 1000.0);
  }

  lemma ScaleLower(t: int, q: real, f: int, p: real)
    requires f > 0 && f as real * q == p && t as real <= q
    ensures (t * f) as real <= p
  {
    RealScale(t as real, q, f as real);
    ProductAsReal(t, f);
  }

  lemma ScaleUpper(t: int, q: real, f: int, p: real)
    requires f > 0 && f as real * q == p && q < t as real
    ensures p < (t * f) as real
  {
    RealScale(q, t as real, f as real);
    ProductAsReal(t, f);
  }

  /** Integer multiplication agrees with real multiplication. */
  lemma {:induction false} ProductAsReal(a: int, b: int)
    requires b >= 0
    ensures (a * b) as real == a as real * b as real
  {
    if b > 0 {
      ProductAsReal(a, b - 1);
      assert a * b == a * (b - 1) + a;
      assert a as real * b as real == a as real * (b - 1) as real + a as real;
    }
  }

  /** The quotient is the one `t` with `t * f <= n < (t + 1) * f`. */
  lemma DivUnique(n: int, f: int, t: int)
    requires f > 0 && t * f <= n < (t + 1) * f
    ensures t == n / f
  {
    var d := n / f;
    assert d * f <= n < (d + 1) * f by {
      assert n == d * f + n % f;
      assert (d + 1) * f == d * f + f;
    }
    if t < d {
      MulMono(t + 1, d, f);
    } else if t > d {
      MulMono(d + 1, t, f);
    }
  }

  lemma RealScale(a: real, b: real, c: real)
    requires a <= b && c > 0.0
    ensures a * c <= b * c
    ensures a < b ==> a * c < b * c
  {
    assert b * c - a * c == (b - a) * c;
  }

  /** Frame `i` of a strip of frames `w` wide and `h` high. */
  function FrameRect(i: int, w: int, h: int): Rect {
    Rect(i * w, 0, (i + 1) * w, h)
  }

  /** The loop of the `AnimatedSprite` constructor: one rectangle per frame, each a
      `bitmap.width / numFrames` wide vertical slice of the bitmap, left to right. */
  method BuildFrames(bitmap: Bitmap, numFrames: FrameCount) returns (frames: seq<Rect>)
    ensures |frames| == numFrames
    ensures forall i :: 0 <= i < numFrames ==>
      frames[i] == FrameRect(i, JavaDiv(bitmap.width, numFrames), bitmap.height)
  {
    var w := JavaDiv(bitmap.width, numFrames);
    frames := [];
    var i := 0;
    while i < numFrames
      invariant 0 <= i <= numFrames
      invariant |frames| == i
      invariant forall k :: 0 <= k < i ==> frames[k] == FrameRect(k, w, bitmap.height)
    {
      frames := frames + [Rect(i * w, 0, (i + 1) * w, bitmap.height)];
      i := i + 1;
    }
  }

  /** The slices of the frame table follow each other without gap or overlap and lie
      within the bitmap. */
  lemma {:induction false} FrameTableLayout(bitmap: Bitmap, numFrames: FrameCount, i: int, j: int)
    requires bitmap.width >= 0 && 0 <= i < j < numFrames
    ensures var w := JavaDiv(bitmap.width, numFrames);
      FrameRect(i, w, bitmap.height).right <= FrameRect(j, w, bitmap.height).left &&
      FrameRect(j - 1, w, bitmap.height).right == FrameRect(j, w, bitmap.height).left &&
      0 <= FrameRect(i, w, bitmap.height).left &&
      FrameRect(j, w, bitmap.height).right <= bitmap.width
  {
    var w := JavaDiv(bitmap.width, numFrames);
    assert w == bitmap.width / numFrames && w >= 0;
    assert w * numFrames <= bitmap.width;
    assert (i + 1) * w <= j * w by { MulMono(i + 1, j, w); }
    assert (j + 1) * w <= numFrames * w by { MulMono(j + 1, numFrames, w); }
    assert 0 <= i * w;
  }

  lemma MulMono(a: int, b: int, w: int)
    requires a <= b && w >= 0
    ensures a * w <= b * w
  {
    assert b * w - a * w == (b - a) * w;
  }

  /** `move(deltaTime)`'s rule for one coordinate. */
  function Advance(p: real, speed: real, dt: real): real {
    p + speed * dt
  }

  /** With unchanged speed, moving by `dt1` and then by `dt2` is one move by `dt1 + dt2`. */
  lemma AdvanceAdditive(p: real, speed: real, dt1: real, dt2: real)
    ensures Advance(Advance(p, speed, dt1), speed, dt2) == Advance(p, speed, dt1 + dt2)
  {
  }

  /** `AnimatedSprite`, with the fields and methods it inherits from `Sprite`. */
  class AnimatedSprite {
    const bitmap: Bitmap
    const numFrames: FrameCount
    const frameMillis: Long        // mFPS
    const frames: seq<Rect>        // mFrames
    const frameWidth: int          // bitmap.getWidth() / mNumFrames, of two final fields
    const kind: SpriteType         // mType
    var x: real, y: real           // mX, mY
    var xSpeed: real, ySpeed: real
    var scale: real
    var draggable: bool, dragging: bool
    var curFrame: int
    var nextFrameTime: Long
    var visible: bool              // isVisible (newer copy only)

    /** The frame table is the one the constructor built and the current frame indexes it. */
    ghost predicate Valid()
      reads this
    {
      && frameWidth == JavaDiv(bitmap.width, numFrames)
      && |frames| == numFrames
      && (forall i :: 0 <= i < numFrames ==> frames[i] == FrameRect(i, frameWidth, bitmap.height))
      && 0 <= curFrame < numFrames
    }

    /** `new AnimatedSprite(bitmap, numFrames, framesPerSecond, type)`: at the origin,
        still, unscaled, not draggable, on frame 0, visible. */
    constructor (bitmap: Bitmap, numFrames: FrameCount, framesPerSecond: int, kind: SpriteType)
      ensures Valid()
      ensures this.bitmap == bitmap && this.numFrames == numFrames && this.kind == kind
      ensures frameMillis == FrameMillis(framesPerSecond)
      ensures frameWidth == JavaDiv(bitmap.width, numFrames)
      ensures x == 0.0 && y == 0.0 && xSpeed == 0.0 && ySpeed == 0.0 && scale == 1.0
      ensures !draggable && !dragging && curFrame == 0 && nextFrameTime == 0 && visible
    {
      var table := BuildFrames(bitmap, numFrames);
      this.bitmap := bitmap;
      this.numFrames := numFrames;
      this.frameMillis := FrameMillis(framesPerSecond);
      this.frames := table;
      this.frameWidth := JavaDiv(bitmap.width, numFrames);
      this.kind := kind;
      x, y, xSpeed, ySpeed := 0.0, 0.0, 0.0, 0.0;
      scale := 1.0;
      draggable, dragging := false, false;
      curFrame, nextFrameTime := 0, 0;
      visible := true;
    }

    /** `AnimatedSprite.getBounds()`: the box of one frame, centred on the position and scaled. */
    function Bounds(): RectF
      reads this
    {
      ScaledBox(frameWidth, bitmap.height, x, y, scale)
    }

    /** `Sprite.getBounds()`: the same construction over the whole bitmap. */
    function SpriteBounds(): RectF
      reads this
    {
      ScaledBox(bitmap.width, bitmap.height, x, y, scale)
    }

    /** The frame box is centred on the position and is one frame's size times the scale. */
    lemma BoundsShape()
      ensures Bounds().left + Bounds().right == 2.0 * x && Bounds().top + Bounds().bottom == 2.0 * y
      ensures Bounds().Width() == frameWidth as real * scale && Bounds().Height() == bitmap.height as real * scale
    {
      ScaledBoxEdges(frameWidth, bitmap.height, x, y, scale);
    }

    /** The whole-bitmap box agrees with the frame box exactly when the frames are as wide
        as the bitmap, as for a one-frame sprite. */
    lemma OneFrameBounds()
      requires Valid() && numFrames == 1
      ensures SpriteBounds() == Bounds()
    {
      assert frameWidth == bitmap.width;
    }

    /** `collideWith(other)`: the two bounding boxes overlap. */
    predicate CollideWith(other: AnimatedSprite)
      reads this, other
    {
      Intersects(Bounds(), other.Bounds())
    }

    /** `isTouched(event)`: the sprite is draggable and its box contains the touch point. */
    predicate IsTouched(px: real, py: real)
      reads this
    {
      draggable && Contains(Bounds(), px, py)
    }

    /** `isDragging()`. */
    predicate IsDragging()
      reads this
    {
      draggable && dragging
    }

    /** `move(deltaTime)`: the position advances by speed times elapsed time. */
    method Move(dt: real)
      modifies this`x, this`y
      ensures x == Advance(old(x), xSpeed, dt) && y == Advance(old(y), ySpeed, dt)
    {
      x := x + xSpeed * dt;
      y := y + ySpeed * dt;
    }

    /** Half the box's width as `handleBounce` truncates it to an int. */
    function HalfWidth(): int reads this { Trunc(Bounds().Width() / 2.0) }

    /** Half the box's height as `handleBounce` truncates it to an int. */
    function HalfHeight(): int reads this { Trunc(Bounds().Height() / 2.0) }

    /** `handleBounce(left, top, right, bottom)`: a speed component changes sign when the
        centre is within half a box of that axis's limits or beyond them; only the speed changes. */
    method HandleBounce(left: int, top: int, right: int, bottom: int)
      modifies this`xSpeed, this`ySpeed
      ensures xSpeed == old(xSpeed) || xSpeed == -old(xSpeed)
      ensures ySpeed == old(ySpeed) || ySpeed == -old(ySpeed)
      ensures xSpeed == (if x < (left + HalfWidth()) as real || x > (right - HalfWidth()) as real then -old(xSpeed) else old(xSpeed))
      ensures ySpeed == (if y < (top + HalfHeight()) as real || y > (bottom - HalfHeight()) as real then -old(ySpeed) else old(ySpeed))
      ensures (left + HalfWidth()) as real <= x <= (right - HalfWidth()) as real &&
              (top + HalfHeight()) as real <= y <= (bottom - HalfHeight()) as real ==>
              xSpeed == old(xSpeed) && ySpeed == old(ySpeed)
    {
      var halfWidth := Trunc(Bounds().Width() / 2.0);
      if x < (left + halfWidth) as real || x > (right - halfWidth) as real {
        xSpeed := xSpeed * -1.0;
      }
      var halfHeight := Trunc(Bounds().Height() / 2.0);
      if y < (top + halfHeight) as real || y > (bottom - halfHeight) as real {
        ySpeed := ySpeed * -1.0;
      }
    }

    /** `setDraggable(state)`. */
    method SetDraggable(state: bool)
      modifies this`draggable
      ensures draggable == state
    {
      draggable := state;
    }

    /** `setDragging(state)`. */
    method SetDragging(state: bool)
      modifies this`dragging
      ensures dragging == state
    {
      dragging := state;
    }

    /** `setScale(scale)`. */
    method SetScale(s: real)
      modifies this`scale
      ensures scale == s
    {
      scale := s;
    }

    /** `setSpeed(xSpeed, ySpeed)`. */
    method SetSpeed(vx: real, vy: real)
      modifies this`xSpeed, this`ySpeed
      ensures xSpeed == vx && ySpeed == vy
    {
      xSpeed := vx;
      ySpeed := vy;
    }

    /** `setPosition(x, y)` on a screen of the given size: the point is clamped per axis
        by the width and height of `getBounds()`, so that (`ClampedBoxInside`) the box
        lies on the screen on every axis it fits on. */
    method SetPosition(px: real, py: real, screenWidth: int, screenHeight: int)
      modifies this`x, this`y
      ensures x == ClampCentre(px, frameWidth as real * scale, screenWidth)
      ensures y == ClampCentre(py, bitmap.height as real * scale, screenHeight)
    {
      var box := Bounds();
      BoundsShape();
      x := ClampCentre(px, box.Width(), screenWidth);
      y := ClampCentre(py, box.Height(), screenHeight);
    }

    /** `handleAnimation()` at time `now`: nothing happens before the next frame is due;
        otherwise the strip advances one frame, wrapping round, and the next frame is
        due one frame time later. */
    method HandleAnimation(now: Long)
      requires Valid()
      modifies this`curFrame, this`nextFrameTime
      ensures Valid()
      ensures old(nextFrameTime) > now ==> curFrame == old(curFrame) && nextFrameTime == old(nextFrameTime)
      ensures old(nextFrameTime) <= now ==>
        curFrame == (old(curFrame) + 1) % numFrames && nextFrameTime == WrapLong(now + frameMillis)
    {
      if nextFrameTime > now {
        return;
      }
      curFrame := (curFrame + 1) % numFrames;
      nextFrameTime := WrapLong(now + frameMillis);
    }

    /** What the newer `render` draws: the current frame, or nothing while invisible. */
    function DrawnFrame(): (r: Option<Rect>)
      requires Valid()
      reads this
      ensures r.None? <==> !visible
      ensures r.Some? ==> r.value == FrameRect(curFrame, frameWidth, bitmap.height)
    {
      if !visible then None else Some(frames[curFrame])
    }

    /** What the older `render` draws: always the current frame. */
    function LegacyDrawnFrame(): (r: Rect)
      requires Valid()
      reads this
      ensures r == FrameRect(curFrame, frameWidth, bitmap.height)
    {
      frames[curFrame]
    }
  }

  /** `collideWith` is symmetric. */
  lemma CollideSymmetric(a: AnimatedSprite, b: AnimatedSprite)
    ensures a.CollideWith(b) == b.CollideWith(a)
  {
    IntersectsSymmetric(a.Bounds(), b.Bounds());
  }

  /** A sprite that is not draggable is never touched and never dragging. */
  lemma DragNeedsDraggable(s: AnimatedSprite, px: real, py: real)
    ensures !s.draggable ==> !s.IsTouched(px, py) && !s.IsDragging()
  {
  }
}

