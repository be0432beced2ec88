/** The older `GamePanel`: the same game state as the newer one, without a level
    threshold. The level follows the score only at the exact values 100, 200 and 300,
    an `update` of a game that is over or won changes nothing, the background scrolls
    only once a bitmap has been chosen for it, bullets fire at most once a second, and
    every draggable sprite takes part in a touch. */
module LegacyPanel {
  import opened Java
  import opened Lists
  import opened Geometry
  import opened Sprites
  import opened Collision
  import opened Play

  const BULLET_INTERVAL: int := 1000
  const START_HP: int := 3
  /** The size of the collision thread's grid cells. */
  const GRID_SIZE: int := 100
  /** `mHandler.postDelayed(mActivateEnemyTask, 2000)`. */
  const SPAWN_DELAY: int := 2000

  /** The `switch (mScore)` of `update`: 100 points give level 2, 200 give level 3,
      300 win; any other score changes neither. */
  function LevelSwitch(score: int, level: int, win: bool): (int, bool) {
    match score
    case 100 => (2, win)
    case 200 => (3, win)
    case 300 => (level, true)
    case _ => (level, win)
  }

  /** What the level and the win flag say about the points: the level is 1, 2 or 3, each
      level above the first was reached at its exact score, and a win at 300. */
  predicate LevelOk(score: int, level: int, win: bool) {
    && 1 <= level <= 3 && 0 <= score
    && (level >= 2 ==> score >= 100)
    && (level == 3 ==> score >= 200)
    && (win ==> score >= 300)
  }

  /** The switch changes the level only at 100 and 200 points and the win flag only at
      300, and keeps `LevelOk`. */
  lemma LevelSwitchStep(score: int, level: int, win: bool)
    requires LevelOk(score, level, win)
    ensures var (l, w) := LevelSwitch(score, level, win);
      && LevelOk(score, l, w)
      && (l != level ==> score == 100 || score == 200)
      && (w != win ==> score == 300 && w)
      && (score != 100 && score != 200 && score != 300 ==> l == level && w == win)
  {
  }

  /** The points only match the switch exactly: a score that jumps past 100 between two
      updates (two hits in one frame, 90 to 110) leaves the first level in place. */
  lemma ScoreJumpKeepsLevel()
    ensures LevelSwitch(110, 1, false) == (1, false)
    ensures LevelOk(110, 1, false)
  {
  }

  /** More points never undo `LevelOk`. */
  lemma MorePointsKeepLevel(score: int, level: int, win: bool, more: int)
    requires LevelOk(score, level, win) && more >= 0
    ensures LevelOk(score + more, level, win)
  {
  }

  /** The background `drawBackgroundBitmap` picks for a level: water, desert and base for
      levels 1, 2 and 3; any other level keeps the one before. */
  function LevelBackground(images: Images, level: int, before: Option<Bitmap>): (r: Option<Bitmap>)
    ensures 1 <= level <= 3 ==> r.Some?
    ensures !(1 <= level <= 3) ==> r == before
  {
    match level
    case 1 => Some(images.water)
    case 2 => Some(images.desert)
    case 3 => Some(images.base)
    case _ => before
  }

  /** `updateBackground(deltaTime)` on the offset: unchanged while no bitmap is chosen,
      otherwise scrolled through its height. */
  function BackgroundStep(y: real, step: real, background: Option<Bitmap>): real {
    if background.Some? then Scroll(y, step, background.value.height) else y
  }

  /** Without a bitmap the offset stays; with one it moves by the step, less the
      bitmap's height once it passes it. */
  lemma BackgroundStepMoves(y: real, step: real, background: Option<Bitmap>)
    ensures background.None? ==> BackgroundStep(y, step, background) == y
    ensures background.Some? ==>
      var h := background.value.height as real;
      && (y + step > h ==> BackgroundStep(y, step, background) == y + step - h)
      && (y + step <= h ==> BackgroundStep(y, step, background) == y + step)
  {
  }

  /** Some sprite of `s` is draggable and being dragged. */
  predicate AnyDragging(s: seq<AnimatedSprite>)
    reads s
  {
    exists k :: 0 <= k < |s| && s[k].IsDragging()
  }

  class GamePanel {
    const images: Images
    const screen: Screen
    const player: AnimatedSprite           // mPlayer
    var density: real                      // mDisplayDensity
    var backgroundSpeed: real              // mBackgroundSpeed
    var background: Option<Bitmap>         // mBackgroundBitmap
    var centerX: real, centerY: real
    var score: int                         // mScore
    var level: int                         // mLevel
    var playerHP: int                      // mPlayerHP
    var lastHitTime: Long                  // mLastHitTime
    var lastBulletTime: Long               // mLastBulletTime
    var backgroundY: real                  // mBackgroundY
    var isGameOver: bool, isGameWin: bool, isGameStart: bool
    var sprites: seq<AnimatedSprite>       // mSprites
    var enemies: seq<AnimatedSprite>       // mEnemy
    var bullets: seq<AnimatedSprite>       // mBullets
    var collision: CollisionThread?        // collisionThread

    /** What every step keeps: the three lists as in the newer panel (each sprite once,
        the enemies and bullets of their kind and all among the sprites), the level and
        win flag backed by the points, and the game over exactly when the hit points are
        used up. */
    ghost predicate Valid()
      reads this
    {
      && ListsOk(sprites, enemies, bullets)
      && LevelOk(score, level, isGameWin)
      && (isGameOver <==> playerHP <= 0)
    }

    /** A game that is won has at least 300 points. */
    lemma WonWithPoints()
      requires Valid() && isGameWin
      ensures score >= 300
    {
    }

    /** `new GamePanel(context, attrs)`: level 1, three hit points, no points, no
        background, empty lists, and a new player sprite. */
    constructor (images: Images, screen: Screen)
      ensures Valid()
      ensures this.images == images && this.screen == screen
      ensures fresh(player) && player.Valid() && player.kind == PLAYER && player.bitmap == images.player
      ensures player.numFrames == SPRITE_FRAMES && player.frameMillis == FrameMillis(SPRITE_FPS)
      ensures player.x == 0.0 && player.y == 0.0 && player.scale == 1.0 && !player.draggable && !player.dragging
      ensures score == 0 && level == 1 && playerHP == START_HP && background == None
      ensures lastHitTime == 0 && lastBulletTime == 0 && backgroundY == 0.0 && density == 0.0 && backgroundSpeed == 0.0
      ensures centerX == 0.0 && centerY == 0.0
      ensures !isGameOver && !isGameWin && !isGameStart
      ensures sprites == [] && enemies == [] && bullets == [] && collision == null
    {
      this.images := images;
      this.screen := screen;
      player := new AnimatedSprite(images.player, SPRITE_FRAMES, SPRITE_FPS, PLAYER);
      density, backgroundSpeed := 0.0, 0.0;
      background := None;
      centerX, centerY := 0.0, 0.0;
      score, level, playerHP := 0, 1, START_HP;
      lastHitTime, lastBulletTime := 0, 0;
      backgroundY := 0.0;
      isGameOver, isGameWin, isGameStart := false, false, false;
      sprites, enemies, bullets := [], [], [];
      collision := null;
    }

    /** `start()` with the display density `density`: the background speed follows the
        density; the player is put at the view's size less its box times the density
        (clamped with the scale it had), then scaled to half the density, made
        draggable and added to the sprites; a collision thread is made over the view
        with 100-unit cells. The activity calls `start()` each time its surface is
        created; from the second call on the sprite list holds the player twice and the
        lists are no longer in step. */
    method Start(density: real)
      requires Valid() && JavaDiv(screen.viewWidth, GRID_SIZE) >= -1 && JavaDiv(screen.viewHeight, GRID_SIZE) >= -1
      modifies this`density, this`backgroundSpeed, this`centerX, this`centerY, this`sprites, this`collision
      modifies player`x, player`y, player`scale, player`draggable
      ensures Valid() <==> old(player !in sprites)
      ensures this.density == density && backgroundSpeed == 50.0 * density
      ensures centerX == screen.viewWidth as real - old(BoxWidth(player)) * density
      ensures centerY == screen.viewHeight as real - old(BoxHeight(player)) * density
      ensures player.x == ClampCentre(centerX, old(BoxWidth(player)), screen.width)
      ensures player.y == ClampCentre(centerY, old(BoxHeight(player)), screen.height)
      ensures player.scale == density / 2.0 && player.draggable
      ensures sprites == old(sprites) + [player]
      ensures fresh(collision) && collision.Valid() && collision.running
      ensures collision.gridSize == GRID_SIZE && collision.screenWidth == screen.viewWidth && collision.screenHeight == screen.viewHeight
    {
      this.density := density;
      backgroundSpeed := 50.0 * density;
      PlacePlayer(density);
      AddPlayer();
      collision := new CollisionThread(GRID_SIZE, screen.viewWidth, screen.viewHeight);
    }

    /** The player's part of `start()`: the centre is the view's size less the player's box
        times the density; the player is put there, clamped with the scale it had, then
        scaled to half the density and made draggable. */
    method PlacePlayer(density: real)
      modifies this`centerX, this`centerY, player`x, player`y, player`scale, player`draggable
      ensures centerX == screen.viewWidth as real - old(BoxWidth(player)) * density
      ensures centerY == screen.viewHeight as real - old(BoxHeight(player)) * density
      ensures player.x == ClampCentre(centerX, old(BoxWidth(player)), screen.width)
      ensures player.y == ClampCentre(centerY, old(BoxHeight(player)), screen.height)
      ensures player.scale == density / 2.0 && player.draggable
    {
      centerX := screen.viewWidth as real - BoxWidth(player) * density;
      centerY := screen.viewHeight as real - BoxHeight(player) * density;
      player.SetPosition(centerX, centerY, screen.width, screen.height);
      player.SetScale(density / 2.0);
      player.SetDraggable(true);
    }

    /** `mSprites.add(mPlayer)`. The list takes the player again on a second `start()`,
        and then holds it twice. */
    method AddPlayer()
      requires Valid()
      modifies this`sprites
      ensures sprites == old(sprites) + [player]
      ensures Valid() <==> old(player !in sprites)
    {
      if player !in sprites {
        AddSpriteOk(sprites, enemies, bullets, player);
      } else {
        AppendPresent(sprites, player);
      }
      sprites := sprites + [player];
    }

    /** `update(deltaTime)` at time `now`, with one draw of `Math.random()` per enemy.
        Once the game is over or won nothing changes and the activity's finish is posted
        (`finish`). Otherwise the level switch runs on the score, the background scrolls
        if it has a bitmap, a bullet may be fired, every enemy takes its step, every
        bullet moves and those above the top edge leave both lists: a sprite stays in a
        list exactly when it was there or was just fired (`fired`), and is not a bullet
        above the top edge. */
    method Update(dt: real, now: Long, randoms: seq<real>) returns (finish: bool, ghost fired: seq<AnimatedSprite>)
      requires Valid() && |randoms| == |enemies|
      modifies this`level, this`isGameWin, this`backgroundY, this`lastBulletTime
      modifies this`bullets, this`sprites, enemies`x, enemies`y, bullets`x, bullets`y
      ensures Valid()
      ensures finish == old(isGameOver || isGameWin)
      ensures finish ==>
        && level == old(level) && isGameWin == old(isGameWin) && backgroundY == old(backgroundY)
        && lastBulletTime == old(lastBulletTime) && bullets == old(bullets) && sprites == old(sprites) && fired == []
        && (forall k :: 0 <= k < |enemies| ==> PoseOf(enemies[k]) == old(PoseOf(enemies[k])))
        && (forall k :: 0 <= k < |bullets| ==> PoseOf(bullets[k]) == old(PoseOf(bullets[k])))
      ensures !finish ==>
        && (level, isGameWin) == LevelSwitch(old(score), old(level), old(isGameWin))
        && backgroundY == BackgroundStep(old(backgroundY), backgroundSpeed * dt, background)
        && var fire := Elapsed(now, old(lastBulletTime)) > BULLET_INTERVAL && old(player.IsDragging());
           && lastBulletTime == (if fire then now else old(lastBulletTime))
           && |fired| == (if fire then 1 else 0)
      ensures forall b :: b in fired ==>
        && fresh(b) && b.kind == BULLET && b.xSpeed == 0.0 && b.ySpeed == BULLET_SPEED * density
        && PoseOf(b) == Pose(Advance(old(NextMuzzle()).x, b.xSpeed, dt), Advance(old(NextMuzzle()).y, b.ySpeed, dt))
      ensures !finish ==>
        && (forall k :: 0 <= k < |enemies| ==>
              PoseOf(enemies[k]) == EnemyStep(old(PoseOf(enemies[k])), enemies[k].xSpeed, enemies[k].ySpeed, dt,
                                              randoms[k], BoxWidth(enemies[k]), BoxHeight(enemies[k]), screen))
        && (forall k :: 0 <= k < |old(bullets)| ==>
              var b := old(bullets)[k];
              PoseOf(b) == Pose(Advance(old(b.x), b.xSpeed, dt), Advance(old(b.y), b.ySpeed, dt)))
        && (forall x :: x in bullets <==> (x in old(bullets) || x in fired) && x.y >= 0.0)
        && (forall x :: x in sprites <==> (x in old(sprites) || x in fired) && (x in old(bullets) || x in fired ==> x.y >= 0.0))
      ensures enemies == old(enemies)
    {
      if isGameOver || isGameWin {
        return true, [];
      }
      ghost var bs := bullets;
      fired := BeginUpdate(dt, now);
      MoveAfterFiring(dt, randoms, bs, fired);
      return false, fired;
    }

    /** The part of a running `update` before the sprites move: the level switch, the
        background and the firing, which adds the bullet `fired`, if there is one. */
    method BeginUpdate(dt: real, now: Long) returns (ghost fired: seq<AnimatedSprite>)
      requires Valid()
      modifies this`level, this`isGameWin, this`backgroundY, this`lastBulletTime, this`bullets, this`sprites
      ensures Valid()
      ensures (level, isGameWin) == LevelSwitch(old(score), old(level), old(isGameWin))
      ensures backgroundY == BackgroundStep(old(backgroundY), backgroundSpeed * dt, background)
      ensures var fire := Elapsed(now, old(lastBulletTime)) > BULLET_INTERVAL && old(player.IsDragging());
        && lastBulletTime == (if fire then now else old(lastBulletTime))
        && |fired| == (if fire then 1 else 0)
      ensures enemies == old(enemies) && bullets == old(bullets) + fired && sprites == old(sprites) + fired
      ensures forall b :: b in fired ==>
        && fresh(b) && b.kind == BULLET && b.xSpeed == 0.0 && b.ySpeed == BULLET_SPEED * density
        && PoseOf(b) == old(NextMuzzle())
    {
      SwitchLevel();
      UpdateBackground(dt);
      ghost var bs := bullets;
      FireBullets(now);
      fired := bullets[|bs|..];
      assert bullets == bs + fired;
    }

    /** The `switch (mScore)` of `update`. */
    method SwitchLevel()
      requires Valid()
      modifies this`level, this`isGameWin
      ensures Valid()
      ensures (level, isGameWin) == LevelSwitch(old(score), old(level), old(isGameWin))
    {
      LevelSwitchStep(score, level, isGameWin);
      match score {
        case 100 => level := 2;
        case 200 => level := 3;
        case 300 => isGameWin := true;
        case _ =>
      }
    }

    /** `updateBackground(deltaTime)`: while no background bitmap is chosen nothing
        moves; otherwise the offset scrolls by speed times time, through its height. */
    method UpdateBackground(dt: real)
      modifies this`backgroundY
      ensures backgroundY == BackgroundStep(old(backgroundY), backgroundSpeed * dt, background)
    {
      if background.Some? {
        backgroundY := backgroundY + backgroundSpeed * dt;
        if backgroundY > background.value.height as real {
          backgroundY := backgroundY - background.value.height as real;
        }
      }
    }

    /** The choice of bitmap at the head of `drawBackgroundBitmap(mLevel, canvas)`, which
        `render` calls with the level; on every level the game reaches there is one. */
    method ChooseBackground()
      requires Valid()
      modifies this`background
      ensures background == LevelBackground(images, level, old(background))
      ensures background.Some?
    {
      match level {
        case 1 => background := Some(images.water);
        case 2 => background := Some(images.desert);
        case 3 => background := Some(images.base);
        case _ =>
      }
    }

    /** Where a bullet fired now starts. */
    function NextMuzzle(): Pose
      reads player
    {
      Muzzle(JavaDiv(images.bullet.width, SPRITE_FRAMES) as real, images.bullet.height as real,
             player.x, player.y, BoxHeight(player), screen)
    }

    /** The bullet `fireBullets` makes: a player's height above the player, rising at 300
        units per unit of density. */
    method NewBullet() returns (b: AnimatedSprite)
      ensures fresh(b) && b !in sprites && b.Valid() && b.kind == BULLET && b.bitmap == images.bullet
      ensures b.numFrames == SPRITE_FRAMES && b.frameMillis == FrameMillis(SPRITE_FPS) && b.scale == 1.0
      ensures b.xSpeed == 0.0 && b.ySpeed == BULLET_SPEED * density
      ensures PoseOf(b) == NextMuzzle()
    {
      b := new AnimatedSprite(images.bullet, SPRITE_FRAMES, SPRITE_FPS, BULLET);
      b.SetPosition(player.x, player.y - BoxHeight(player), screen.width, screen.height);
      b.SetSpeed(0.0, BULLET_SPEED * density);
    }

    /** `fireBullets()` at time `now`: when more than 1000 ms have passed since the last
        shot and the player is being dragged, the time is recorded and one new bullet
        (`NewBullet`) is added to both lists; otherwise nothing changes. */
    method FireBullets(now: Long)
      requires Valid()
      modifies this`lastBulletTime, this`bullets, this`sprites
      ensures Valid()
      ensures var fire := Elapsed(now, old(lastBulletTime)) > BULLET_INTERVAL && player.IsDragging();
        && (!fire ==> lastBulletTime == old(lastBulletTime) && bullets == old(bullets) && sprites == old(sprites))
        && (fire ==> lastBulletTime == now && |bullets| == |old(bullets)| + 1 && bullets[..|old(bullets)|] == old(bullets)
                     && sprites == old(sprites) + [bullets[|old(bullets)|]])
      ensures |bullets| > |old(bullets)| ==>
        var b := bullets[|old(bullets)|];
        && fresh(b) && b.Valid() && b.kind == BULLET && b.bitmap == images.bullet
        && b.numFrames == SPRITE_FRAMES && b.frameMillis == FrameMillis(SPRITE_FPS)
        && b.xSpeed == 0.0 && b.ySpeed == BULLET_SPEED * density && b.scale == 1.0
        && PoseOf(b) == NextMuzzle()
    {
      if Elapsed(now, lastBulletTime) > BULLET_INTERVAL && player.IsDragging() {
        var ss, es, bs := sprites, enemies, bullets;
        var b := NewBullet();
        AddBulletOk(ss, es, bs, b);
        bullets := bs + [b];
        sprites := ss + [b];
        lastBulletTime := now;
        assert bullets[..|bs|] == bs;
      }
    }

    /** `MoveSprites` after a firing, told apart by where the bullets came from: the
        list of bullets is the earlier bullets `bs` followed by the bullets just `fired`. */
    method MoveAfterFiring(dt: real, randoms: seq<real>, ghost bs: seq<AnimatedSprite>, ghost fired: seq<AnimatedSprite>)
      requires Valid() && |randoms| == |enemies| && bullets == bs + fired
      modifies this`bullets, this`sprites, enemies`x, enemies`y, bullets`x, bullets`y
      ensures Valid()
      ensures enemies == old(enemies)
      ensures forall k :: 0 <= k < |enemies| ==>
        PoseOf(enemies[k]) == EnemyStep(old(PoseOf(enemies[k])), enemies[k].xSpeed, enemies[k].ySpeed, dt, randoms[k],
                                        BoxWidth(enemies[k]), BoxHeight(enemies[k]), screen)
      ensures forall k :: 0 <= k < |bs| ==>
        var b := bs[k];
        PoseOf(b) == Pose(Advance(old(b.x), b.xSpeed, dt), Advance(old(b.y), b.ySpeed, dt))
      ensures forall j :: 0 <= j < |fired| ==>
        var b := fired[j];
        PoseOf(b) == Pose(Advance(old(b.x), b.xSpeed, dt), Advance(old(b.y), b.ySpeed, dt))
      ensures forall x :: x in bullets <==> (x in bs || x in fired) && x.y >= 0.0
      ensures forall x :: x in sprites <==> x in old(sprites) && (x in bs || x in fired ==> x.y >= 0.0)
    {
      ghost var moved := bullets;
      assert forall k :: 0 <= k < |bs| ==> moved[k] == bs[k];
      assert forall j :: 0 <= j < |fired| ==> moved[|bs| + j] == fired[j];
      MoveSprites(dt, randoms);
    }

    /** The last two calls of `update`: `updateEnemies(deltaTime)`, then
        `updateBullets(deltaTime)`. */
    method MoveSprites(dt: real, randoms: seq<real>)
      requires Valid() && |randoms| == |enemies|
      modifies this`bullets, this`sprites, enemies`x, enemies`y, bullets`x, bullets`y
      ensures Valid()
      ensures enemies == old(enemies)
      ensures forall k :: 0 <= k < |enemies| ==>
        PoseOf(enemies[k]) == EnemyStep(old(PoseOf(enemies[k])), enemies[k].xSpeed, enemies[k].ySpeed, dt, randoms[k],
                                        BoxWidth(enemies[k]), BoxHeight(enemies[k]), screen)
      ensures forall k :: 0 <= k < |old(bullets)| ==>
        var b := old(bullets)[k];
        PoseOf(b) == Pose(Advance(old(b.x), b.xSpeed, dt), Advance(old(b.y), b.ySpeed, dt))
      ensures forall x :: x in bullets <==> x in old(bullets) && x.y >= 0.0
      ensures forall x :: x in sprites <==> x in old(sprites) && (x in old(bullets) ==> x.y >= 0.0)
    {
      MoveEnemies(dt, randoms);
      forall e | e in enemies ensures e !in bullets {
        OtherKind(bullets, BULLET, e);
      }
      MoveBullets(dt);
    }

    /** `updateEnemies(deltaTime)` on the panel's enemies, with one draw per enemy; the
        bullets do not move. */
    method MoveEnemies(dt: real, randoms: seq<real>)
      requires Valid() && |randoms| == |enemies|
      modifies enemies`x, enemies`y
      ensures forall k :: 0 <= k < |enemies| ==>
        PoseOf(enemies[k]) == EnemyStep(old(PoseOf(enemies[k])), enemies[k].xSpeed, enemies[k].ySpeed, dt, randoms[k],
                                        BoxWidth(enemies[k]), BoxHeight(enemies[k]), screen)
      ensures forall b :: b in bullets ==> PoseOf(b) == old(PoseOf(b))
    {
      forall b | b in bullets ensures b !in enemies {
        OtherKind(enemies, ENEMY, b);
      }
      UpdateEnemies(enemies, dt, randoms, screen);
    }

    /** `updateBullets(deltaTime)` on the panel's lists: every bullet moves, and a bullet
        is kept in both lists exactly when it is then on or below the top edge. */
    method MoveBullets(dt: real)
      requires Valid()
      modifies this`bullets, this`sprites, bullets`x, bullets`y
      ensures Valid()
      ensures forall k :: 0 <= k < |old(bullets)| ==>
        PoseOf(old(bullets)[k]) == Pose(Advance(old(bullets[k].x), old(bullets)[k].xSpeed, dt), Advance(old(bullets[k].y), old(bullets)[k].ySpeed, dt))
      ensures forall k :: 0 <= k < |old(bullets)| ==>
        (old(bullets)[k] in bullets <==> old(bullets)[k].y >= 0.0) && (old(bullets)[k] in sprites <==> old(bullets)[k].y >= 0.0)
      ensures forall b :: b in bullets ==> b.y >= 0.0
      ensures bullets == Survivors(old(bullets), Heights(old(bullets)), |old(bullets)|)
      ensures sprites == WithoutAll(old(sprites), Fallen(old(bullets), Heights(old(bullets)), |old(bullets)|))
      ensures forall x :: x in bullets <==> x in old(bullets) && x.y >= 0.0
      ensures forall x :: x in sprites <==> x in old(sprites) && (x in old(bullets) ==> x.y >= 0.0)
    {
      var bs, ss := bullets, sprites;
      var kept, rest := UpdateBullets(bs, ss, dt);
      KeepBullets(kept, rest);
    }

    /** The lists `updateBullets` leaves, made the panel's: the survivors of the moved
        bullets, and the sprites without the bullets that left. */
    method KeepBullets(kept: seq<AnimatedSprite>, rest: seq<AnimatedSprite>)
      requires Valid()
      requires kept == Survivors(bullets, Heights(bullets), |bullets|)
      requires rest == WithoutAll(sprites, Fallen(bullets, Heights(bullets), |bullets|))
      modifies this`bullets, this`sprites
      ensures Valid() && bullets == kept && sprites == rest
      ensures forall k :: 0 <= k < |old(bullets)| ==>
        var b := old(bullets)[k];
        (b in bullets <==> b.y >= 0.0) && (b in sprites <==> b.y >= 0.0)
      ensures forall b :: b in bullets ==> b.y >= 0.0
      ensures forall x :: x in bullets <==> x in old(bullets) && x.y >= 0.0
      ensures forall x :: x in sprites <==> x in old(sprites) && (x in old(bullets) ==> x.y >= 0.0)
    {
      BulletsLeaveTogether(bullets, enemies, sprites, Heights(bullets));
      BulletsKeptExactly(bullets, enemies, sprites);
      BulletsOnScreen(bullets);
      bullets, sprites := kept, rest;
    }

    /** The enemy `spawnEnemy` makes from the two draws `r1` and `r2` of `Math.random()`:
        the first picks its type from the level, which the older switch maps to its
        bitmap and downward speed; the second its column; it starts at the top. */
    method NewEnemy(r1: real, r2: real) returns (enemy: AnimatedSprite)
      ensures var c := LegacyEnemyColour(EnemyType(r1, level));
        && fresh(enemy) && enemy !in sprites && enemy.Valid() && enemy.kind == ENEMY && enemy.bitmap == EnemyBitmap(images, c)
        && enemy.numFrames == SPRITE_FRAMES && enemy.frameMillis == FrameMillis(SPRITE_FPS) && enemy.scale == 1.0
        && enemy.xSpeed == 0.0 && enemy.ySpeed == EnemySpeed(c, density, level)
      ensures PoseOf(enemy) == TopPose(r2, BoxWidth(enemy), BoxHeight(enemy), screen)
    {
      var colour := LegacyEnemyColour(EnemyType(r1, level));
      enemy := new AnimatedSprite(EnemyBitmap(images, colour), SPRITE_FRAMES, SPRITE_FPS, ENEMY);
      enemy.SetSpeed(0.0, EnemySpeed(colour, density, level));
      PlaceAtTop(enemy, r2, screen);
    }

    /** `spawnEnemy()` with the two draws `r1` and `r2`: a new enemy (`NewEnemy`) is added
        to both lists. */
    method SpawnEnemy(r1: real, r2: real) returns (enemy: AnimatedSprite)
      requires Valid()
      modifies this`enemies, this`sprites
      ensures Valid()
      ensures fresh(enemy) && enemies == old(enemies) + [enemy] && sprites == old(sprites) + [enemy]
      ensures var c := LegacyEnemyColour(EnemyType(r1, level));
        && enemy.Valid() && enemy.kind == ENEMY && enemy.bitmap == EnemyBitmap(images, c)
        && enemy.numFrames == SPRITE_FRAMES && enemy.frameMillis == FrameMillis(SPRITE_FPS) && enemy.scale == 1.0
        && enemy.xSpeed == 0.0 && enemy.ySpeed == EnemySpeed(c, density, level)
      ensures PoseOf(enemy) == TopPose(r2, BoxWidth(enemy), BoxHeight(enemy), screen)
    {
      var ss, es, bs := sprites, enemies, bullets;
      enemy := NewEnemy(r1, r2);
      AddEnemyOk(ss, es, bs, enemy);
      enemies := es + [enemy];
      sprites := ss + [enemy];
    }

    /** One run of `mActivateEnemyTask` with the draws `r1` and `r2`: nothing once the game
        is over or won, and no new run is asked for; otherwise, a new enemy when the game
        has started and fewer than 10 enemies are out, and the next run is asked for
        2000 ms later. */
    method ActivateEnemyTask(r1: real, r2: real) returns (delay: Option<int>)
      requires Valid()
      modifies this`enemies, this`sprites
      ensures Valid()
      ensures old(isGameOver || isGameWin) <==> delay.None?
      ensures delay.Some? ==> delay.value == SPAWN_DELAY
      ensures var spawn := !(isGameOver || isGameWin) && |old(enemies)| < MAX_ENEMIES && isGameStart;
        && (!spawn ==> enemies == old(enemies) && sprites == old(sprites))
        && (spawn ==> |enemies| == |old(enemies)| + 1 && enemies[..|old(enemies)|] == old(enemies)
                      && sprites == old(sprites) + [enemies[|old(enemies)|]]
                      && var e, c := enemies[|old(enemies)|], LegacyEnemyColour(EnemyType(r1, level));
                         && fresh(e) && e.Valid() && e.kind == ENEMY && e.bitmap == EnemyBitmap(images, c)
                         && e.numFrames == SPRITE_FRAMES && e.frameMillis == FrameMillis(SPRITE_FPS) && e.scale == 1.0
                         && e.xSpeed == 0.0 && e.ySpeed == EnemySpeed(c, density, level)
                         && PoseOf(e) == TopPose(r2, BoxWidth(e), BoxHeight(e), screen))
    {
      if isGameOver || isGameWin {
        return None;
      }
      if |enemies| < MAX_ENEMIES {
        if isGameStart {
          var e := SpawnEnemy(r1, r2);
          assert enemies[..|old(enemies)|] == old(enemies);
        }
      }
      delay := Some(SPAWN_DELAY);
    }

    /** The sprite `spawnExplosion(sprite)` makes: a still explosion at `s`'s position. */
    method NewExplosion(s: AnimatedSprite) returns (explosion: AnimatedSprite)
      ensures fresh(explosion) && explosion !in sprites && explosion.Valid() && explosion.kind == EXPLOSION
      ensures explosion.bitmap == images.explosion
      ensures explosion.numFrames == SPRITE_FRAMES && explosion.frameMillis == FrameMillis(SPRITE_FPS) && explosion.scale == 1.0
      ensures explosion.xSpeed == 0.0 && explosion.ySpeed == 0.0
      ensures explosion.x == ClampCentre(s.x, BoxWidth(explosion), screen.width)
      ensures explosion.y == ClampCentre(s.y, BoxHeight(explosion), screen.height)
    {
      explosion := new AnimatedSprite(images.explosion, SPRITE_FRAMES, SPRITE_FPS, EXPLOSION);
      explosion.SetPosition(s.x, s.y, screen.width, screen.height);
      explosion.SetSpeed(0.0, 0.0);
    }

    /** `spawnExplosion(sprite)`: a new explosion (`NewExplosion`) at `s` is added to the sprites. */
    method SpawnExplosion(s: AnimatedSprite) returns (explosion: AnimatedSprite)
      requires Valid()
      modifies this`sprites
      ensures Valid()
      ensures fresh(explosion) && sprites == old(sprites) + [explosion] && explosion.kind == EXPLOSION
      ensures explosion.x == ClampCentre(s.x, BoxWidth(explosion), screen.width)
      ensures explosion.y == ClampCentre(s.y, BoxHeight(explosion), screen.height)
    {
      var ss, es, bs := sprites, enemies, bullets;
      explosion := NewExplosion(s);
      AddSpriteOk(ss, es, bs, explosion);
      sprites := ss + [explosion];
    }

    /** The runnable `spawnExplosion` posts for 3000 ms later: the explosion leaves the sprites. */
    method RemoveExplosion(explosion: AnimatedSprite)
      requires Valid() && explosion.kind == EXPLOSION
      modifies this`sprites
      ensures Valid()
      ensures sprites == Without(old(sprites), explosion)
      ensures explosion !in sprites
    {
      RemoveSpriteOk(sprites, enemies, bullets, explosion);
      sprites := Without(sprites, explosion);
    }

    /** `onPlayerEnemyCollision(player, enemy)` at time `now`: within 3000 ms of the last
        hit nothing changes; otherwise an explosion appears at the player, the player loses
        one hit point, the time is recorded, the game is over when no hit points are left,
        and the enemy leaves both lists. */
    method OnPlayerEnemyCollision(p: AnimatedSprite, e: AnimatedSprite, now: Long)
      requires Valid() && e.kind == ENEMY
      modifies this`playerHP, this`lastHitTime, this`isGameOver, this`enemies, this`sprites
      ensures Valid()
      ensures !Vulnerable(now, old(lastHitTime)) ==>
        && playerHP == old(playerHP) && lastHitTime == old(lastHitTime) && isGameOver == old(isGameOver)
        && enemies == old(enemies) && sprites == old(sprites)
      ensures Vulnerable(now, old(lastHitTime)) ==>
        && playerHP == old(playerHP) - 1 && lastHitTime == now && isGameOver == (playerHP <= 0)
        && enemies == Without(old(enemies), e) && e !in enemies && e !in sprites
        && |sprites| > 0 && sprites[..|sprites| - 1] == Without(old(sprites), e)
        && var ex := sprites[|sprites| - 1];
           fresh(ex) && ex.kind == EXPLOSION && ex.x == ClampCentre(p.x, BoxWidth(ex), screen.width)
           && ex.y == ClampCentre(p.y, BoxHeight(ex), screen.height)
    {
      if Vulnerable(now, lastHitTime) {
        var ex := NewExplosion(p);
        LoseHitPoint(now);
        ExplodeEnemy(ex, e);
      }
    }

    /** The player's part of a hit: one hit point less, the time recorded, and the game
        over once no hit points are left. */
    method LoseHitPoint(now: Long)
      requires Valid()
      modifies this`playerHP, this`lastHitTime, this`isGameOver
      ensures Valid()
      ensures playerHP == old(playerHP) - 1 && lastHitTime == now && isGameOver == (playerHP <= 0)
    {
      playerHP := playerHP - 1;
      lastHitTime := now;
      isGameOver := isGameOver || playerHP <= 0;
    }

    /** The lists' part of a hit on an enemy: the explosion `ex` joins the sprites and the
        enemy `e` leaves both lists. */
    method ExplodeEnemy(ex: AnimatedSprite, e: AnimatedSprite)
      requires Valid() && ex !in sprites && ex.kind == EXPLOSION && e.kind == ENEMY
      modifies this`enemies, this`sprites
      ensures Valid()
      ensures enemies == Without(old(enemies), e) && e !in enemies && e !in sprites
      ensures sprites == Without(old(sprites), e) + [ex]
    {
      EnemyHitOk(sprites, enemies, bullets, ex, e);
      sprites := Without(sprites + [ex], e);
      enemies := Without(enemies, e);
    }

    /** `onBulletEnemyCollision(bullet, enemy)`: an explosion appears at the enemy, the
        score rises by 10, and the bullet and the enemy leave their lists and the sprites. */
    method OnBulletEnemyCollision(b: AnimatedSprite, e: AnimatedSprite)
      requires Valid() && b.kind == BULLET && e.kind == ENEMY
      modifies this`score, this`bullets, this`enemies, this`sprites
      ensures Valid()
      ensures score == old(score) + HIT_SCORE
      ensures bullets == Without(old(bullets), b) && enemies == Without(old(enemies), e)
      ensures b !in bullets && b !in sprites && e !in enemies && e !in sprites
      ensures |sprites| > 0 && sprites[..|sprites| - 1] == Without(Without(old(sprites), b), e)
      ensures var ex := sprites[|sprites| - 1];
        fresh(ex) && ex.kind == EXPLOSION && ex.x == ClampCentre(e.x, BoxWidth(ex), screen.width)
        && ex.y == ClampCentre(e.y, BoxHeight(ex), screen.height)
    {
      var ex := NewExplosion(e);
      AddHitScore();
      var ss := sprites;
      RemoveBullet(b);
      WithoutWithin(ss, b, ex);
      var s1 := sprites;
      ExplodeEnemy(ex, e);
      WithoutWithin(s1, e, b);
      assert sprites[..|sprites| - 1] == Without(s1, e);
    }

    /** The score's part of a hit on an enemy: 10 more points. */
    method AddHitScore()
      requires Valid()
      modifies this`score
      ensures Valid()
      ensures score == old(score) + HIT_SCORE
    {
      MorePointsKeepLevel(score, level, isGameWin, HIT_SCORE);
      score := score + HIT_SCORE;
    }

    /** Removing the bullet `b` from the bullet list, then from the sprite list. */
    method RemoveBullet(b: AnimatedSprite)
      requires Valid() && b.kind == BULLET
      modifies this`bullets, this`sprites
      ensures Valid()
      ensures bullets == Without(old(bullets), b) && sprites == Without(old(sprites), b)
      ensures b !in bullets && b !in sprites
    {
      RemoveBulletOk(sprites, enemies, bullets, b);
      sprites := Without(sprites, b);
      bullets := Without(bullets, b);
    }

    /** `onTouchEvent(event)`, which always reports the event handled. Only draggable
        sprites take part. A press starts dragging the first of them under the touch point
        and stops there; a move takes every sprite being dragged to the touch point,
        clamped to the display, and starts the game if there is one; a release stops
        dragging all of them. */
    method OnTouchEvent(ev: MotionEvent) returns (handled: bool)
      requires Valid()
      modifies this`isGameStart, sprites`dragging, sprites`x, sprites`y
      ensures handled
      ensures ev.action == ActionDown ==>
        var k := old(FirstTouched(sprites, ev.x, ev.y));
        && (k < |sprites| ==> sprites[k].dragging)
        && forall j :: 0 <= j < |sprites| && j != k ==> sprites[j].dragging == old(sprites[j].dragging)
      ensures ev.action == ActionMove ==>
        && isGameStart == (old(isGameStart) || old(AnyDragging(sprites)))
        && forall j :: 0 <= j < |sprites| ==>
             && sprites[j].dragging == old(sprites[j].dragging)
             && (old(sprites[j].IsDragging()) ==>
                   PoseOf(sprites[j]) == Pose(ClampCentre(ev.x, BoxWidth(sprites[j]), screen.width),
                                              ClampCentre(ev.y, BoxHeight(sprites[j]), screen.height)))
             && (!old(sprites[j].IsDragging()) ==> PoseOf(sprites[j]) == old(PoseOf(sprites[j])))
      ensures ev.action == ActionUp ==>
        forall j :: 0 <= j < |sprites| ==> sprites[j].dragging == (old(sprites[j].dragging) && !sprites[j].draggable)
      ensures ev.action != ActionMove ==>
        isGameStart == old(isGameStart) && forall j :: 0 <= j < |sprites| ==> PoseOf(sprites[j]) == old(PoseOf(sprites[j]))
      ensures ev.action == ActionOther ==>
        forall j :: 0 <= j < |sprites| ==> sprites[j].dragging == old(sprites[j].dragging)
    {
      match ev.action {
        case ActionDown => TouchDown(sprites, ev.x, ev.y);
        case ActionMove =>
          var started := TouchMove(sprites, ev.x, ev.y, screen);
          isGameStart := isGameStart || started;
        case ActionUp => TouchUp(sprites);
        case ActionOther =>
      }
      return true;
    }
  }

  /** The `ACTION_DOWN` case of the older `onTouchEvent` over `s`: the first draggable
      sprite under the point starts being dragged, and the loop returns there. */
  method TouchDown(s: seq<AnimatedSprite>, px: real, py: real)
    requires Distinct(s)
    modifies s`dragging
    ensures var k := old(FirstTouched(s, px, py));
      && (k < |s| ==> s[k].dragging)
      && forall j :: 0 <= j < |s| && j != k ==> s[j].dragging == old(s[j].dragging)
  {
    var i := 0;
    while i < |s| && !(s[i].draggable && s[i].IsTouched(px, py))
      invariant 0 <= i <= |s|
      invariant forall k :: 0 <= k < i ==> !s[k].IsTouched(px, py)
    {
      i := i + 1;
    }
    if i < |s| {
      s[i].SetDragging(true);
    }
  }

  /** The `ACTION_MOVE` case over `s`: every draggable sprite being dragged goes to the
      point, clamped to the display; `started` tells whether there was one, which starts
      the game. */
  method TouchMove(s: seq<AnimatedSprite>, px: real, py: real, screen: Screen) returns (started: bool)
    requires Distinct(s)
    modifies s`x, s`y
    ensures started == old(AnyDragging(s))
    ensures forall j :: 0 <= j < |s| ==>
      && (old(s[j].IsDragging()) ==>
            PoseOf(s[j]) == Pose(ClampCentre(px, BoxWidth(s[j]), screen.width), ClampCentre(py, BoxHeight(s[j]), screen.height)))
      && (!old(s[j].IsDragging()) ==> PoseOf(s[j]) == old(PoseOf(s[j])))
  {
    started := false;
    var i := 0;
    while i < |s|
      invariant 0 <= i <= |s|
      invariant started <==> exists k :: 0 <= k < i && s[k].draggable && s[k].dragging
      invariant forall j :: 0 <= j < i ==>
        && (s[j].draggable && s[j].dragging ==>
              PoseOf(s[j]) == Pose(ClampCentre(px, BoxWidth(s[j]), screen.width), ClampCentre(py, BoxHeight(s[j]), screen.height)))
        && (!(s[j].draggable && s[j].dragging) ==> PoseOf(s[j]) == old(PoseOf(s[j])))
      invariant forall j :: i <= j < |s| ==> PoseOf(s[j]) == old(PoseOf(s[j]))
    {
      started := started || (s[i].draggable && s[i].dragging);
      DragTo(s[i], px, py, screen);
      i := i + 1;
    }
  }

  /** The `ACTION_MOVE` case for one sprite `sp`: if it is being dragged it goes to the
      point, clamped to the display; otherwise it stays. */
  method DragTo(sp: AnimatedSprite, px: real, py: real, screen: Screen)
    modifies sp`x, sp`y
    ensures sp.IsDragging() ==>
      PoseOf(sp) == Pose(ClampCentre(px, BoxWidth(sp), screen.width), ClampCentre(py, BoxHeight(sp), screen.height))
    ensures !sp.IsDragging() ==> PoseOf(sp) == old(PoseOf(sp))
  {
    if sp.IsDragging() {
      sp.SetPosition(px, py, screen.width, screen.height);
    }
  }

  /** The `ACTION_UP` case over `s`: every draggable sprite stops being dragged. */
  method TouchUp(s: seq<AnimatedSprite>)
    requires Distinct(s)
    modifies s`dragging
    ensures forall j :: 0 <= j < |s| ==> s[j].dragging == (old(s[j].dragging) && !s[j].draggable)
  {
    var i := 0;
    while i < |s|
      invariant 0 <= i <= |s|
      invariant forall j :: 0 <= j < i ==> s[j].dragging == (old(s[j].dragging) && !s[j].draggable)
      invariant forall j :: i <= j < |s| ==> s[j].dragging == old(s[j].dragging)
    {
      if s[i].draggable && s[i].IsDragging() {
        s[i].SetDragging(false);
      }
      i := i + 1;
    }
  }
}

