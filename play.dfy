/** The game rules that the older and the newer `GamePanel` share: the constants, the
    enemy-type draw and its colour tables, the invincibility and firing timers, the
    scrolling background, and the two per-frame loops over `mEnemy` and `mBullets`,
    which are the same code in both versions. */
module Play {
  import opened Java
  import opened Lists
  import opened Geometry
  import opened Sprites

  const MAX_ENEMIES: int := 10
  const BULLET_SPEED: real := -300.0
  const PLAYER_INVINCIBLE_TIME: int := 3000
  /** Points for each enemy a bullet destroys. */
  const HIT_SCORE: int := 10
  /** Frame count and frame rate every sprite of the game is made with. */
  const SPRITE_FRAMES: FrameCount := 3
  const SPRITE_FPS: int := 6

  /** The decoded bitmaps the game draws its sprites and backgrounds from. */
  datatype Images = Images(player: Bitmap, enemyRed: Bitmap, enemyBlue: Bitmap, enemyGreen: Bitmap,
                           bullet: Bitmap, explosion: Bitmap, water: Bitmap, desert: Bitmap, base: Bitmap)

  /** The two sizes the panel works with: its own view (`getWidth()`, `getHeight()`), and the
      display (`Resources.getSystem().getDisplayMetrics()`), which `setPosition` clamps to. */
  datatype Screen = Screen(viewWidth: int, viewHeight: int, width: int, height: int)

  /** `MotionEvent`: the action and the touch point. */
  datatype Action = ActionDown | ActionMove | ActionUp | ActionOther
  datatype MotionEvent = MotionEvent(action: Action, x: real, y: real)

  /** A sprite's position. */
  datatype Pose = Pose(x: real, y: real)

  function PoseOf(s: AnimatedSprite): Pose
    reads s
  {
    Pose(s.x, s.y)
  }

  /** Milliseconds from `since` to `now`, as Java's `long` subtraction computes them. */
  function Elapsed(now: Long, since: Long): Long {
    WrapLong(now - since)
  }

  /** The player can be hit again: more than `PLAYER_INVINCIBLE_TIME` after the last hit. */
  predicate Vulnerable(now: Long, lastHit: Long) {
    Elapsed(now, lastHit) > PLAYER_INVINCIBLE_TIME
  }

  /** Inside the window after a hit the player cannot be hit; past it, it can. */
  lemma InvincibleWindow(now: Long, lastHit: Long)
    requires 0 <= lastHit <= now
    ensures now - lastHit <= PLAYER_INVINCIBLE_TIME ==> !Vulnerable(now, lastHit)
    ensures now - lastHit > PLAYER_INVINCIBLE_TIME ==> Vulnerable(now, lastHit)
  {
  }

  /** The enemy type for a draw `r` of `Math.random()`: `r` times the level, truncated,
      plus one. */
  function EnemyType(r: real, level: int): int {
    Trunc(r * level as real) + 1
  }

  /** For a draw in [0, 1) the type lies between 1 and the level. */
  lemma EnemyTypeRange(r: real, level: int)
    requires 0.0 <= r < 1.0 && level >= 1
    ensures 1 <= EnemyType(r, level) <= level
  {
    var v := r * level as real;
    assert 0.0 <= v < level as real by {
      assert level as real * 1.0 - v == level as real * (1.0 - r);
    }
  }

  /** The three enemy bitmaps. */
  datatype Colour = Red | Blue | Green

  /** The newer `spawnEnemy` switch: type 2 is blue, 3 green, every other type red. */
  function EnemyColour(t: int): Colour {
    if t == 2 then Blue else if t == 3 then Green else Red
  }

  /** The older `spawnEnemy` switch: 1 red, 2 blue, 3 green, any other red. */
  function LegacyEnemyColour(t: int): Colour {
    match t
    case 1 => Red
    case 2 => Blue
    case 3 => Green
    case _ => Red
  }

  /** Speed per unit of density and level of each enemy colour, in both versions. */
  function BaseSpeed(c: Colour): int {
    match c
    case Red => 100
    case Blue => 150
    case Green => 200
  }

  function EnemyBitmap(images: Images, c: Colour): Bitmap {
    match c
    case Red => images.enemyRed
    case Blue => images.enemyBlue
    case Green => images.enemyGreen
  }

  /** An enemy's downward speed: its colour's base speed scaled by the display density
      and by the level. */
  function EnemySpeed(c: Colour, density: real, level: int): real {
    BaseSpeed(c) as real * density * level as real
  }

  /** The older switch, with its explicit `case 1`, picks the same colour as the newer one. */
  lemma SameColourTables(t: int)
    ensures LegacyEnemyColour(t) == EnemyColour(t)
  {
  }

  /** Which colours a level can draw: only red on level 1, blue from level 2, green from
      level 3; from level 4 the draw can give type 4 and above, which are red again. */
  lemma ColoursByLevel(r: real, level: int)
    requires 0.0 <= r < 1.0 && level >= 1
    ensures level == 1 ==> EnemyColour(EnemyType(r, level)) == Red
    ensures EnemyColour(EnemyType(r, level)) == Blue ==> level >= 2
    ensures EnemyColour(EnemyType(r, level)) == Green ==> level >= 3
  {
    EnemyTypeRange(r, level);
  }

  /** Placing a box `size` high one height above the top pulls its centre down to `size / 2`:
      enemies sent to the top of the screen start just inside it, not above it. */
  lemma EntersAtTop(size: real, limit: int)
    requires size > 0.0
    ensures ClampCentre(-size, size, limit) == size / 2.0
  {
  }

  /** The background offset after a step: it moves by `step` and, once past the bitmap's
      `height`, wraps back by one height. */
  function Scroll(y: real, step: real, height: int): real {
    var moved := y + step;
    if moved > height as real then moved - height as real else moved
  }

  /** An offset within the bitmap's height, scrolled by at most that height, stays within it;
      it only wraps once, so only then. */
  lemma ScrollStaysInStrip(y: real, step: real, height: int)
    requires 0.0 <= y <= height as real && 0.0 <= step <= height as real
    ensures 0.0 <= Scroll(y, step, height) <= height as real
  {
  }

  /** The offset moves by the step, less the bitmap's height when it passes it. */
  lemma ScrollMoves(y: real, step: real, height: int)
    ensures Scroll(y, step, height) == y + step || Scroll(y, step, height) == y + step - height as real
    ensures y + step <= 2.0 * height as real ==> Scroll(y, step, height) <= height as real
  {
  }

  /** One enemy in `updateEnemies`: it moves by its speed; if its centre is then below the
      view, `setPosition` puts it at `r` times the free width of the view and `-h`, clamped to
      the display. `w` and `h` are the size of its box. */
  function EnemyStep(p: Pose, vx: real, vy: real, dt: real, r: real, w: real, h: real, screen: Screen): Pose {
    var moved := Pose(Advance(p.x, vx, dt), Advance(p.y, vy, dt));
    if moved.y > screen.viewHeight as real then TopPose(r, w, h, screen) else moved
  }

  /** Where a spawned or recycled enemy with a box `w` wide and `h` high is put, for the
      draw `r` of `Math.random()`: across at `r` times the view's free width, up at one
      box height above the top, both clamped to the display. */
  function TopPose(r: real, w: real, h: real, screen: Screen): Pose {
    Pose(ClampCentre(r * (screen.viewWidth as real - w), w, screen.width), ClampCentre(-h, h, screen.height))
  }

  /** The `setPosition` call that sends the enemy `e` to the top, for the draw `r`. */
  method PlaceAtTop(e: AnimatedSprite, r: real, screen: Screen)
    modifies e`x, e`y
    ensures PoseOf(e) == TopPose(r, BoxWidth(e), BoxHeight(e), screen)
  {
    var w, h := BoxWidth(e), BoxHeight(e);
    e.SetPosition(r * (screen.viewWidth as real - w), -h, screen.width, screen.height);
    assert w == BoxWidth(e) && h == BoxHeight(e);
  }

  /** An enemy that falls below the view is sent back to the top, onto the display
      wherever it fits, just inside its top edge; one still in the view only moves. */
  lemma EnemyStepRecycles(p: Pose, vx: real, vy: real, dt: real, r: real, w: real, h: real, screen: Screen)
    requires 0.0 < w <= screen.width as real && 0.0 < h <= screen.height as real
    ensures var q := EnemyStep(p, vx, vy, dt, r, w, h, screen);
      if Advance(p.y, vy, dt) > screen.viewHeight as real then
        q.y == h / 2.0 && 0.0 <= q.x - w / 2.0 && q.x + w / 2.0 <= screen.width as real
      else
        q == Pose(Advance(p.x, vx, dt), Advance(p.y, vy, dt))
  {
    if Advance(p.y, vy, dt) > screen.viewHeight as real {
      TopPoseInside(r, w, h, screen);
    }
  }

  /** A box that fits on the display, sent to the top, lies on it, just inside its top edge. */
  lemma TopPoseInside(r: real, w: real, h: real, screen: Screen)
    requires 0.0 < w <= screen.width as real && 0.0 < h <= screen.height as real
    ensures var q := TopPose(r, w, h, screen);
      q.y == h / 2.0 && 0.0 <= q.x - w / 2.0 && q.x + w / 2.0 <= screen.width as real
  {
    EntersAtTop(h, screen.height);
    ClampCentreFits(r * (screen.viewWidth as real - w), w, screen.width);
  }

  /** With no time passing, an enemy in the view stays where it is. */
  lemma EnemyStepAtRest(p: Pose, vx: real, vy: real, r: real, w: real, h: real, screen: Screen)
    requires p.y <= screen.viewHeight as real
    ensures EnemyStep(p, vx, vy, 0.0, r, w, h, screen) == p
  {
  }

  /** The size of a sprite's box (`getBounds().width()`, `getBounds().height()`). */
  function BoxWidth(s: AnimatedSprite): real reads s { s.frameWidth as real * s.scale }
  function BoxHeight(s: AnimatedSprite): real reads s { s.bitmap.height as real * s.scale }

  /** Where a bullet whose box is `w` by `h` starts when a player at (`px`, `py`) whose
      box is `ph` high fires it: a player's height above the player, clamped to the
      display. */
  function Muzzle(w: real, h: real, px: real, py: real, ph: real, screen: Screen): Pose {
    Pose(ClampCentre(px, w, screen.width), ClampCentre(py - ph, h, screen.height))
  }

  /** `updateEnemies` on `enemies` (the iteration of a `CopyOnWriteArrayList` walks a
      snapshot of it): every enemy takes its `EnemyStep`, using the `k`-th draw of
      `Math.random()` for the `k`-th enemy. The list itself does not change. */
  method UpdateEnemies(enemies: seq<AnimatedSprite>, dt: real, randoms: seq<real>, screen: Screen)
    requires Distinct(enemies) && |randoms| == |enemies|
    modifies enemies`x, enemies`y
    ensures forall k :: 0 <= k < |enemies| ==>
      PoseOf(enemies[k]) == EnemyStep(old(PoseOf(enemies[k])), enemies[k].xSpeed, enemies[k].ySpeed, dt, randoms[k],
                                      BoxWidth(enemies[k]), BoxHeight(enemies[k]), screen)
  {
    var i := 0;
    while i < |enemies|
      invariant 0 <= i <= |enemies|
      invariant forall k :: 0 <= k < i ==>
        PoseOf(enemies[k]) == EnemyStep(old(PoseOf(enemies[k])), enemies[k].xSpeed, enemies[k].ySpeed, dt, randoms[k],
                                        BoxWidth(enemies[k]), BoxHeight(enemies[k]), screen)
      invariant forall k :: i <= k < |enemies| ==> PoseOf(enemies[k]) == old(PoseOf(enemies[k]))
    {
      StepEnemy(enemies[i], dt, randoms[i], screen);
      i := i + 1;
    }
  }

  /** The body of the `updateEnemies` loop for one enemy `e` and its draw `r`; the width
      and height of `getBounds()` are `BoxWidth` and `BoxHeight` (`BoundsShape`). */
  method StepEnemy(e: AnimatedSprite, dt: real, r: real, screen: Screen)
    modifies e`x, e`y
    ensures PoseOf(e) == EnemyStep(old(PoseOf(e)), e.xSpeed, e.ySpeed, dt, r, BoxWidth(e), BoxHeight(e), screen)
  {
    e.Move(dt);
    if e.y > screen.viewHeight as real {
      PlaceAtTop(e, r, screen);
    }
  }

  /** The heights of the sprites of `bs`, in order. */
  function Heights(bs: seq<AnimatedSprite>): (r: seq<real>)
    reads bs
    ensures |r| == |bs| && forall k :: 0 <= k < |bs| ==> r[k] == bs[k].y
  {
    seq(|bs|, k requires 0 <= k < |bs| reads bs => bs[k].y)
  }

  /** The bullets among the first `n` of `bs` whose height in `ys` is on or below the
      top edge, in order. */
  function Survivors<T>(bs: seq<T>, ys: seq<real>, n: int): (r: seq<T>)
    requires 0 <= n <= |bs| && n <= |ys|
    ensures |r| <= n
  {
    if n == 0 then [] else Survivors(bs, ys, n - 1) + (if ys[n - 1] < 0.0 then [] else [bs[n - 1]])
  }

  /** The bullets among the first `n` of `bs` whose height in `ys` is above the top edge,
      in order. */
  function Fallen<T>(bs: seq<T>, ys: seq<real>, n: int): (r: seq<T>)
    requires 0 <= n <= |bs| && n <= |ys|
    ensures |r| <= n
  {
    if n == 0 then [] else Fallen(bs, ys, n - 1) + (if ys[n - 1] < 0.0 then [bs[n - 1]] else [])
  }

  /** `s` after `remove(x)` for each `x` of `xs` in turn. */
  function WithoutAll<T(==)>(s: seq<T>, xs: seq<T>): seq<T> {
    if xs == [] then s else Without(WithoutAll(s, xs[..|xs| - 1]), xs[|xs| - 1])
  }

  /** Every survivor and every fallen bullet is one of the bullets considered, and each
      of those is one or the other. */
  lemma {:induction false} SurvivorsWithin<T>(bs: seq<T>, ys: seq<real>, n: int)
    requires 0 <= n <= |bs| && n <= |ys|
    ensures forall b :: b in Survivors(bs, ys, n) ==> b in bs[..n]
    ensures forall b :: b in Fallen(bs, ys, n) ==> b in bs[..n]
    ensures |Survivors(bs, ys, n)| + |Fallen(bs, ys, n)| == n
  {
    if n > 0 {
      SurvivorsWithin(bs, ys, n - 1);
      assert forall b :: b in bs[..n - 1] ==> b in bs[..n];
    }
  }

  /** Of bullets without repetitions, the survivors are exactly those at or below the top
      edge. */
  lemma {:induction false} SurvivorsExact<T>(bs: seq<T>, ys: seq<real>, n: int)
    requires 0 <= n <= |bs| && n <= |ys| && Distinct(bs)
    ensures forall k :: 0 <= k < n ==> (bs[k] in Survivors(bs, ys, n) <==> ys[k] >= 0.0)
  {
    if n > 0 {
      var m := n - 1;
      SurvivorsExact(bs, ys, m);
      var S := Survivors(bs, ys, m);
      assert Survivors(bs, ys, n) == S + (if ys[m] < 0.0 then [] else [bs[m]]);
      assert bs[m] !in S by {
        SurvivorsWithin(bs, ys, m);
        NotBefore(bs, m);
      }
      forall k | 0 <= k < m ensures bs[k] in Survivors(bs, ys, n) <==> ys[k] >= 0.0 {
        assert bs[k] != bs[m];
      }
    }
  }

  /** Of bullets without repetitions, the fallen are exactly those above the top edge. */
  lemma {:induction false} FallenExact<T>(bs: seq<T>, ys: seq<real>, n: int)
    requires 0 <= n <= |bs| && n <= |ys| && Distinct(bs)
    ensures forall k :: 0 <= k < n ==> (bs[k] in Fallen(bs, ys, n) <==> ys[k] < 0.0)
  {
    if n > 0 {
      var m := n - 1;
      FallenExact(bs, ys, m);
      var F := Fallen(bs, ys, m);
      assert Fallen(bs, ys, n) == F + (if ys[m] < 0.0 then [bs[m]] else []);
      assert bs[m] !in F by {
        SurvivorsWithin(bs, ys, m);
        NotBefore(bs, m);
      }
      forall k | 0 <= k < m ensures bs[k] in Fallen(bs, ys, n) <==> ys[k] < 0.0 {
        assert bs[k] != bs[m];
      }
    }
  }

  /** Removing several elements of a list without repetitions removes exactly those. */
  lemma {:induction false} WithoutAllDistinct<T>(s: seq<T>, xs: seq<T>)
    requires Distinct(s)
    ensures Distinct(WithoutAll(s, xs))
    ensures forall y :: y in WithoutAll(s, xs) <==> y in s && y !in xs
  {
    if xs != [] {
      var init, last := xs[..|xs| - 1], xs[|xs| - 1];
      WithoutAllDistinct(s, init);
      WithoutDistinct(WithoutAll(s, init), last);
      assert xs == init + [last];
    }
  }

  /** `remove(b)` on a list whose front part does not hold `b` and whose rest starts with it. */
  lemma WithoutFront<T>(front: seq<T>, b: T, back: seq<T>)
    requires b !in front
    ensures Without(front + ([b] + back), b) == front + back
  {
    WithoutAfter(front, [b] + back, b);
  }

  /** In a list without repetitions, no element occurs before its own position. */
  lemma NotBefore<T>(s: seq<T>, i: int)
    requires Distinct(s) && 0 <= i < |s|
    ensures s[i] !in s[..i]
  {
  }

  /** Removing one more element after several. */
  lemma WithoutAllSnoc<T>(s: seq<T>, xs: seq<T>, x: T)
    ensures WithoutAll(s, xs + [x]) == Without(WithoutAll(s, xs), x)
  {
    assert (xs + [x])[..|xs|] == xs;
  }

  /** Which of the first `n` bullets survive depends only on their own heights. */
  lemma {:induction false} SurvivorsPrefix<T>(bs: seq<T>, ys: seq<real>, zs: seq<real>, n: int)
    requires 0 <= n <= |bs| && n <= |ys| && n <= |zs|
    requires forall k :: 0 <= k < n ==> ys[k] == zs[k]
    ensures Survivors(bs, ys, n) == Survivors(bs, zs, n)
    ensures Fallen(bs, ys, n) == Fallen(bs, zs, n)
  {
    if n > 0 {
      SurvivorsPrefix(bs, ys, zs, n - 1);
    }
  }

  /** One more bullet of the snapshot, at height `y`: the live bullet list loses it exactly
      when it is above the top edge. */
  lemma KeptStep<T>(bs: seq<T>, ys: seq<real>, y: real)
    requires |ys| < |bs| && bs[|ys|] !in bs[..|ys|]
    ensures var i := |ys|;
      y < 0.0 ==> Survivors(bs, ys + [y], i + 1) + bs[i + 1..] == Without(Survivors(bs, ys, i) + bs[i..], bs[i])
    ensures var i := |ys|;
      y >= 0.0 ==> Survivors(bs, ys + [y], i + 1) + bs[i + 1..] == Survivors(bs, ys, i) + bs[i..]
    ensures var i := |ys|;
      Fallen(bs, ys + [y], i + 1) == Fallen(bs, ys, i) + (if y < 0.0 then [bs[i]] else [])
  {
    var i := |ys|;
    var b, back := bs[i], bs[i + 1..];
    SurvivorsPrefix(bs, ys + [y], ys, i);
    var S := Survivors(bs, ys, i);
    SplitAt(bs, i);
    if y < 0.0 {
      assert b !in S by { SurvivorsWithin(bs, ys, i); }
      assert S + [] == S;
      WithoutFront(S, b, back);
    } else {
      AppendAssoc(S, [b], back);
    }
  }

  /** The lists of `updateBullets` after one more bullet of the snapshot, at height `y`,
      given the lists before it. */
  lemma BulletListStep<T>(bs: seq<T>, sprites: seq<T>, ys: seq<real>, y: real,
                          kept: seq<T>, rest: seq<T>, kept': seq<T>, rest': seq<T>)
    requires |ys| < |bs| && Distinct(bs)
    requires kept == Survivors(bs, ys, |ys|) + bs[|ys|..] && rest == WithoutAll(sprites, Fallen(bs, ys, |ys|))
    requires kept' == (if y < 0.0 then Without(kept, bs[|ys|]) else kept)
    requires rest' == (if y < 0.0 then Without(rest, bs[|ys|]) else rest)
    ensures kept' == Survivors(bs, ys + [y], |ys| + 1) + bs[|ys| + 1..]
    ensures rest' == WithoutAll(sprites, Fallen(bs, ys + [y], |ys| + 1))
  {
    var i := |ys|;
    NotBefore(bs, i);
    KeptStep(bs, ys, y);
    var F := Fallen(bs, ys, i);
    if y < 0.0 {
      WithoutAllSnoc(sprites, F, bs[i]);
    } else {
      assert F + [] == F;
    }
  }

  /** The position of every sprite of `s`, in order. */
  function Poses(s: seq<AnimatedSprite>): (r: seq<Pose>)
    reads s
    ensures |r| == |s| && forall k :: 0 <= k < |s| ==> r[k] == PoseOf(s[k])
  {
    seq(|s|, k requires 0 <= k < |s| reads s => PoseOf(s[k]))
  }

  /** The first `n` bullets of `bs` have moved by their speeds for `dt` from the positions
      `before`; the others are still there. */
  ghost predicate MovedUpTo(bs: seq<AnimatedSprite>, before: seq<Pose>, dt: real, n: int)
    reads bs
  {
    && |before| == |bs| && 0 <= n <= |bs|
    && (forall k :: 0 <= k < n ==>
          PoseOf(bs[k]) == Pose(Advance(before[k].x, bs[k].xSpeed, dt), Advance(before[k].y, bs[k].ySpeed, dt)))
    && (forall k :: n <= k < |bs| ==> PoseOf(bs[k]) == before[k])
  }

  /** `ys` are the present heights of the first bullets of `bs`. */
  ghost predicate HeightsOf(bs: seq<AnimatedSprite>, ys: seq<real>)
    reads bs
  {
    |ys| <= |bs| && forall k :: 0 <= k < |ys| ==> ys[k] == bs[k].y
  }

  /** The state of `updateBullets` once the bullets of the snapshot `bs` whose present
      heights are `ys` have been handled: those have moved from `before`, the others not,
      and `kept` and `rest` are the lists after removing the handled bullets that are
      above the top edge. */
  ghost predicate BulletsHandled(bs: seq<AnimatedSprite>, sprites: seq<AnimatedSprite>, before: seq<Pose>,
                                 ys: seq<real>, dt: real, kept: seq<AnimatedSprite>, rest: seq<AnimatedSprite>)
    reads bs
  {
    && MovedUpTo(bs, before, dt, |ys|) && HeightsOf(bs, ys)
    && kept == Survivors(bs, ys, |ys|) + bs[|ys|..]
    && rest == WithoutAll(sprites, Fallen(bs, ys, |ys|))
  }

  /** One turn of the loop of `updateBullets`: bullet `b`, the next of the snapshot `bs`
      after those whose heights `ys` were seen, moves by its speed for `dt` and, if it is
      then above the top edge, leaves both lists. */
  method UpdateBullet(b: AnimatedSprite, bs: seq<AnimatedSprite>, sprites: seq<AnimatedSprite>,
                      ghost before: seq<Pose>, ghost ys: seq<real>, dt: real,
                      kept: seq<AnimatedSprite>, rest: seq<AnimatedSprite>)
    returns (kept': seq<AnimatedSprite>, rest': seq<AnimatedSprite>)
    requires |ys| < |bs| && b == bs[|ys|] && Distinct(bs)
    requires BulletsHandled(bs, sprites, before, ys, dt, kept, rest)
    modifies b`x, b`y
    ensures BulletsHandled(bs, sprites, before, ys + [b.y], dt, kept', rest')
  {
    b.Move(dt);
    kept', rest' := kept, rest;
    if b.y < 0.0 {
      kept' := Without(kept, b);
      rest' := Without(rest, b);
    }
    BulletListStep(bs, sprites, ys, b.y, kept, rest, kept', rest');
  }

  /** `updateBullets` on the lists `bullets` and `sprites`: each bullet of the snapshot moves
      by its speed, and one whose centre is then above the top edge is removed from both
      lists. The lists that result are returned. */
  method UpdateBullets(bullets: seq<AnimatedSprite>, sprites: seq<AnimatedSprite>, dt: real)
    returns (kept: seq<AnimatedSprite>, rest: seq<AnimatedSprite>)
    requires Distinct(bullets)
    modifies bullets`x, bullets`y
    ensures forall k :: 0 <= k < |bullets| ==>
      PoseOf(bullets[k]) == Pose(Advance(old(bullets[k].x), bullets[k].xSpeed, dt), Advance(old(bullets[k].y), bullets[k].ySpeed, dt))
    ensures kept == Survivors(bullets, Heights(bullets), |bullets|)
    ensures rest == WithoutAll(sprites, Fallen(bullets, Heights(bullets), |bullets|))
  {
    ghost var before := Poses(bullets);
    ghost var ys: seq<real> := [];
    kept, rest := bullets, sprites;
    assert bullets[0..] == bullets;
    var i := 0;
    while i < |bullets|
      invariant i == |ys| <= |bullets|
      invariant BulletsHandled(bullets, sprites, before, ys, dt, kept, rest)
    {
      kept, rest := UpdateBullet(bullets[i], bullets, sprites, before, ys, dt, kept, rest);
      ys := ys + [bullets[i].y];
      i := i + 1;
    }
    HandledAll(bullets, sprites, before, ys, dt, kept, rest);
  }

  /** Once every bullet of the snapshot is handled, the heights seen are the present
      heights, and the lists are the survivors and the sprites without the fallen. */
  lemma HandledAll(bs: seq<AnimatedSprite>, sprites: seq<AnimatedSprite>, before: seq<Pose>,
                   ys: seq<real>, dt: real, kept: seq<AnimatedSprite>, rest: seq<AnimatedSprite>)
    requires BulletsHandled(bs, sprites, before, ys, dt, kept, rest) && |ys| == |bs|
    ensures ys == Heights(bs)
    ensures kept == Survivors(bs, Heights(bs), |bs|)
    ensures rest == WithoutAll(sprites, Fallen(bs, Heights(bs), |bs|))
  {
    assert bs[|ys|..] == [];
    assert Survivors(bs, ys, |ys|) + [] == Survivors(bs, ys, |ys|);
    var hs := Heights(bs);
    assert |hs| == |ys| && forall k :: 0 <= k < |ys| ==> hs[k] == ys[k];
  }

  /** The first sprite of `s` that is draggable and under the point, or `|s|` if there is none. */
  function FirstTouched(s: seq<AnimatedSprite>, px: real, py: real): (r: nat)
    reads s
    ensures r <= |s|
    ensures r < |s| ==> s[r].IsTouched(px, py)
    ensures forall k :: 0 <= k < r ==> !s[k].IsTouched(px, py)
  {
    if s == [] then 0
    else if s[0].IsTouched(px, py) then 0
    else 1 + FirstTouched(s[1..], px, py)
  }

  /** Whether each element of `a` is in `b`. */
  predicate Sub<T(==)>(a: seq<T>, b: seq<T>) {
    forall k :: 0 <= k < |a| ==> a[k] in b
  }

  /** Whether every sprite of the list is of the given type. */
  predicate AllOfKind(s: seq<AnimatedSprite>, kind: SpriteType) {
    forall k :: 0 <= k < |s| ==> s[k].kind == kind
  }

  /** Adding a sprite at the end of both lists, or of the outer one only, keeps the one
      within the other. */
  lemma SubAppend<T>(a: seq<T>, b: seq<T>, x: T)
    requires Sub(a, b)
    ensures Sub(a, b + [x]) && Sub(a + [x], b + [x])
  {
  }

  /** Removing the same sprite from two lists without repetitions keeps the one within the other. */
  lemma SubWithout<T>(a: seq<T>, b: seq<T>, x: T)
    requires Sub(a, b) && Distinct(a) && Distinct(b)
    ensures Sub(Without(a, x), Without(b, x))
  {
    WithoutDistinct(a, x);
    WithoutDistinct(b, x);
    forall k | 0 <= k < |Without(a, x)| ensures Without(a, x)[k] in Without(b, x) {
      assert Without(a, x)[k] in Without(a, x);
    }
  }

  /** Removing from the outer list a sprite the inner one does not hold keeps the one
      within the other. */
  lemma SubWithoutOther<T>(a: seq<T>, b: seq<T>, x: T)
    requires Sub(a, b) && x !in a
    ensures Sub(a, Without(b, x))
  {
    forall k | 0 <= k < |a| ensures a[k] in Without(b, x) {
      WithoutKeeps(b, x, a[k]);
    }
  }

  /** A list of sprites of one type still is after a removal. */
  lemma {:induction false} KindsWithout(s: seq<AnimatedSprite>, kind: SpriteType, x: AnimatedSprite)
    requires AllOfKind(s, kind)
    ensures AllOfKind(Without(s, x), kind)
  {
    if s != [] && s[0] != x {
      KindsWithout(s[1..], kind, x);
    }
  }

  /** A sprite of another type is not in a list of sprites of one type. */
  lemma OtherKind(s: seq<AnimatedSprite>, kind: SpriteType, x: AnimatedSprite)
    requires AllOfKind(s, kind) && x.kind != kind
    ensures x !in s
  {
  }

  /** Every survivor is one of the first `n` bullets, at or below the top edge. */
  lemma {:induction false} SurvivorsAbove<T>(bs: seq<T>, ys: seq<real>, n: int)
    requires 0 <= n <= |bs| && n <= |ys|
    ensures forall j :: 0 <= j < |Survivors(bs, ys, n)| ==> KeptAt(Survivors(bs, ys, n)[j], bs, ys, n)
  {
    var r := Survivors(bs, ys, n);
    if n > 0 {
      SurvivorsAbove(bs, ys, n - 1);
      var prev := Survivors(bs, ys, n - 1);
      assert r == prev + (if ys[n - 1] < 0.0 then [] else [bs[n - 1]]);
      forall j | 0 <= j < |r| ensures KeptAt(r[j], bs, ys, n) {
        if j < |prev| {
          assert KeptAt(prev[j], bs, ys, n - 1);
          var k :| 0 <= k < n - 1 && prev[j] == bs[k] && ys[k] >= 0.0;
          assert r[j] == bs[k];
        } else {
          assert r[j] == bs[n - 1] && ys[n - 1] >= 0.0;
        }
      }
    }
  }

  /** After `updateBullets` every bullet left is on or below the top edge. */
  lemma BulletsOnScreen(bs: seq<AnimatedSprite>)
    ensures forall b :: b in Survivors(bs, Heights(bs), |bs|) ==> b.y >= 0.0
  {
    var ys := Heights(bs);
    var kept := Survivors(bs, ys, |bs|);
    SurvivorsAbove(bs, ys, |bs|);
    forall b | b in kept ensures b.y >= 0.0 {
      var j :| 0 <= j < |kept| && kept[j] == b;
      assert KeptAt(kept[j], bs, ys, |bs|);
      var k :| 0 <= k < |bs| && b == bs[k] && ys[k] >= 0.0;
    }
  }

  /** `x` is one of the first `n` bullets, at or below the top edge. */
  ghost predicate KeptAt<T>(x: T, bs: seq<T>, ys: seq<real>, n: int)
    requires 0 <= n <= |bs| && n <= |ys|
  {
    exists k :: 0 <= k < n && x == bs[k] && ys[k] >= 0.0
  }

  /** The survivors of bullets without repetitions have none either. */
  lemma {:induction false} SurvivorsDistinct<T>(bs: seq<T>, ys: seq<real>, n: int)
    requires 0 <= n <= |bs| && n <= |ys| && Distinct(bs)
    ensures Distinct(Survivors(bs, ys, n))
  {
    if n > 0 {
      SurvivorsDistinct(bs, ys, n - 1);
      var S := Survivors(bs, ys, n - 1);
      if ys[n - 1] >= 0.0 {
        assert bs[n - 1] !in S by {
          SurvivorsWithin(bs, ys, n - 1);
          NotBefore(bs, n - 1);
        }
        AppendDistinct(S, bs[n - 1]);
      } else {
        assert S + [] == S;
      }
    }
  }

  /** The survivors and the fallen of a list of sprites of one type are of that type. */
  lemma {:induction false} SurvivorsKind(bs: seq<AnimatedSprite>, ys: seq<real>, n: int, kind: SpriteType)
    requires 0 <= n <= |bs| && n <= |ys| && AllOfKind(bs, kind)
    ensures AllOfKind(Survivors(bs, ys, n), kind) && AllOfKind(Fallen(bs, ys, n), kind)
  {
    if n > 0 {
      SurvivorsKind(bs, ys, n - 1, kind);
    }
  }

  /** The panel's three lists: each holds a sprite at most once, the enemies and the
      bullets are sprites of their type, and all of them are also in the sprite list. */
  ghost predicate ListsOk(sprites: seq<AnimatedSprite>, enemies: seq<AnimatedSprite>, bullets: seq<AnimatedSprite>) {
    && Distinct(sprites) && Distinct(enemies) && Distinct(bullets)
    && Sub(enemies, sprites) && Sub(bullets, sprites)
    && AllOfKind(enemies, ENEMY) && AllOfKind(bullets, BULLET)
  }

  /** `mSprites.add(x)` of a new sprite (the player, an explosion) keeps the lists in step. */
  lemma AddSpriteOk(sprites: seq<AnimatedSprite>, enemies: seq<AnimatedSprite>, bullets: seq<AnimatedSprite>, x: AnimatedSprite)
    requires ListsOk(sprites, enemies, bullets) && x !in sprites
    ensures ListsOk(sprites + [x], enemies, bullets)
  {
    AppendDistinct(sprites, x);
    SubAppend(enemies, sprites, x);
    SubAppend(bullets, sprites, x);
  }

  /** Adding a new enemy to the enemy list and then to the sprite list keeps the lists in step. */
  lemma AddEnemyOk(sprites: seq<AnimatedSprite>, enemies: seq<AnimatedSprite>, bullets: seq<AnimatedSprite>, x: AnimatedSprite)
    requires ListsOk(sprites, enemies, bullets) && x !in sprites && x.kind == ENEMY
    ensures ListsOk(sprites + [x], enemies + [x], bullets)
  {
    AppendDistinct(sprites, x);
    AppendDistinct(enemies, x);
    SubAppend(enemies, sprites, x);
    SubAppend(bullets, sprites, x);
  }

  /** Adding a new bullet to the bullet list and then to the sprite list keeps the lists in step. */
  lemma AddBulletOk(sprites: seq<AnimatedSprite>, enemies: seq<AnimatedSprite>, bullets: seq<AnimatedSprite>, x: AnimatedSprite)
    requires ListsOk(sprites, enemies, bullets) && x !in sprites && x.kind == BULLET
    ensures ListsOk(sprites + [x], enemies, bullets + [x])
  {
    AppendDistinct(sprites, x);
    AppendDistinct(bullets, x);
    SubAppend(enemies, sprites, x);
    SubAppend(bullets, sprites, x);
  }

  /** `mSprites.remove(x)` of a sprite that is neither an enemy nor a bullet keeps the
      lists in step and leaves `x` in none of them. */
  lemma RemoveSpriteOk(sprites: seq<AnimatedSprite>, enemies: seq<AnimatedSprite>, bullets: seq<AnimatedSprite>, x: AnimatedSprite)
    requires ListsOk(sprites, enemies, bullets) && x.kind != ENEMY && x.kind != BULLET
    ensures ListsOk(Without(sprites, x), enemies, bullets) && x !in Without(sprites, x)
  {
    OtherKind(enemies, ENEMY, x);
    OtherKind(bullets, BULLET, x);
    SubWithoutOther(enemies, sprites, x);
    SubWithoutOther(bullets, sprites, x);
    WithoutDistinct(sprites, x);
  }

  /** Removing an enemy from the enemy list and then from the sprite list keeps the
      lists in step and leaves `x` in neither. */
  lemma RemoveEnemyOk(sprites: seq<AnimatedSprite>, enemies: seq<AnimatedSprite>, bullets: seq<AnimatedSprite>, x: AnimatedSprite)
    requires ListsOk(sprites, enemies, bullets) && x.kind == ENEMY
    ensures ListsOk(Without(sprites, x), Without(enemies, x), bullets)
    ensures x !in Without(sprites, x) && x !in Without(enemies, x)
  {
    OtherKind(bullets, BULLET, x);
    SubWithout(enemies, sprites, x);
    SubWithoutOther(bullets, sprites, x);
    KindsWithout(enemies, ENEMY, x);
    WithoutDistinct(enemies, x);
    WithoutDistinct(sprites, x);
  }

  /** Removing a bullet from the bullet list and then from the sprite list keeps the
      lists in step and leaves `x` in neither. */
  lemma RemoveBulletOk(sprites: seq<AnimatedSprite>, enemies: seq<AnimatedSprite>, bullets: seq<AnimatedSprite>, x: AnimatedSprite)
    requires ListsOk(sprites, enemies, bullets) && x.kind == BULLET
    ensures ListsOk(Without(sprites, x), enemies, Without(bullets, x))
    ensures x !in Without(sprites, x) && x !in Without(bullets, x)
  {
    OtherKind(enemies, ENEMY, x);
    SubWithout(bullets, sprites, x);
    SubWithoutOther(enemies, sprites, x);
    KindsWithout(bullets, BULLET, x);
    WithoutDistinct(bullets, x);
    WithoutDistinct(sprites, x);
  }

  /** The list effects of `onPlayerEnemyCollision` once the player is hit: the new
      explosion `ex` is added, then the enemy `e` leaves both lists. The lists stay in
      step, `e` is in neither, and the explosion ends the sprite list. */
  lemma EnemyHitOk(sprites: seq<AnimatedSprite>, enemies: seq<AnimatedSprite>, bullets: seq<AnimatedSprite>,
                   ex: AnimatedSprite, e: AnimatedSprite)
    requires ListsOk(sprites, enemies, bullets) && ex !in sprites && ex.kind == EXPLOSION && e.kind == ENEMY
    ensures var rest := Without(sprites + [ex], e);
      && ListsOk(rest, Without(enemies, e), bullets)
      && rest == Without(sprites, e) + [ex]
      && e !in rest && e !in Without(enemies, e)
  {
    AddSpriteOk(sprites, enemies, bullets, ex);
    RemoveEnemyOk(sprites + [ex], enemies, bullets, e);
    WithoutSnoc(sprites, e, ex);
  }

  /** `updateBullets` keeps the panel's lists in step. After removing, from lists in step,
      the bullets whose heights `ys` are above the top edge, the lists are again in step,
      and a bullet is in the bullet list exactly when it is in the sprite list, exactly
      when it is at or below the top edge. */
  lemma BulletsLeaveTogether(bullets: seq<AnimatedSprite>, enemies: seq<AnimatedSprite>,
                             sprites: seq<AnimatedSprite>, ys: seq<real>)
    requires ListsOk(sprites, enemies, bullets) && |ys| == |bullets|
    ensures var kept, rest := Survivors(bullets, ys, |ys|), WithoutAll(sprites, Fallen(bullets, ys, |ys|));
      && ListsOk(rest, enemies, kept)
      && forall k :: 0 <= k < |bullets| ==>
           (bullets[k] in kept <==> ys[k] >= 0.0) && (bullets[k] in rest <==> ys[k] >= 0.0)
  {
    var n := |ys|;
    var kept, fallen := Survivors(bullets, ys, n), Fallen(bullets, ys, n);
    var rest := WithoutAll(sprites, fallen);
    SurvivorsDistinct(bullets, ys, n);
    WithoutAllDistinct(sprites, fallen);
    SurvivorsWithin(bullets, ys, n);
    SurvivorsExact(bullets, ys, n);
    FallenExact(bullets, ys, n);
    SurvivorsKind(bullets, ys, n, BULLET);
    assert bullets[..n] == bullets;
    forall j | 0 <= j < |kept| ensures kept[j] in rest {
      assert kept[j] in bullets[..n];
      var k :| 0 <= k < n && bullets[..n][k] == kept[j];
      assert bullets[k] == kept[j] && ys[k] >= 0.0;
      assert kept[j] !in fallen && kept[j] in sprites;
    }
    forall j | 0 <= j < |enemies| ensures enemies[j] in rest {
      OtherKind(fallen, BULLET, enemies[j]);
    }
  }

  /** What `updateBullets` leaves, element by element: a sprite stays in the bullet list
      exactly when it was a bullet and is at or below the top edge, and stays in the
      sprite list exactly when it was a sprite that is not a bullet above the top edge. */
  lemma BulletsKeptExactly(bullets: seq<AnimatedSprite>, enemies: seq<AnimatedSprite>, sprites: seq<AnimatedSprite>)
    requires ListsOk(sprites, enemies, bullets)
    ensures var ys := Heights(bullets);
      var kept, rest := Survivors(bullets, ys, |ys|), WithoutAll(sprites, Fallen(bullets, ys, |ys|));
      && (forall x :: x in kept <==> x in bullets && x.y >= 0.0)
      && (forall x :: x in rest <==> x in sprites && (x in bullets ==> x.y >= 0.0))
  {
    var ys := Heights(bullets);
    var n := |ys|;
    var kept, fallen := Survivors(bullets, ys, n), Fallen(bullets, ys, n);
    var rest := WithoutAll(sprites, fallen);
    BulletsLeaveTogether(bullets, enemies, sprites, ys);
    SurvivorsWithin(bullets, ys, n);
    WithoutAllDistinct(sprites, fallen);
    assert bullets[..n] == bullets;
    forall x ensures (x in kept <==> x in bullets && x.y >= 0.0) && (x in rest <==> x in sprites && (x in bullets ==> x.y >= 0.0)) {
      if x in bullets {
        var k :| 0 <= k < n && bullets[k] == x;
        assert ys[k] == x.y;
      }
    }
  }
}

