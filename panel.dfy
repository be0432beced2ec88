/** The newer `GamePanel`: the state of one game (score, level, hit points, timers, the
    background offset and the three sprite lists) and the steps that change it. A step is
    one call of a panel method run to completion; the timers that post these calls, and
    the collision thread that reports hits, are outside the model, which receives their
    results (the time, the draws of `Math.random()`, the sprites that met) as parameters. */
module Panel {
  import opened Java
  import opened Lists
  import opened Geometry
  import opened Sprites
  import opened Collision
  import opened Play

  const BULLET_INTERVAL: int := 500
  const START_HP: int := 3
  /** The size of the collision thread's grid cells. */
  const GRID_SIZE: int := 100

  /** The level check of `update`: once the points reach the threshold the level goes
      up by one and the threshold by 100; otherwise both stay. */
  function Progress(score: int, level: int, next: int): (int, int) {
    if score >= next then (level + 1, next + 100) else (level, next)
  }

  /** The threshold is always the points of the level reached so far: the panel starts on
      level 1 with threshold 0, and each level adds 100 to it. */
  predicate Ladder(level: int, next: int) {
    level >= 1 && next == 100 * (level - 1)
  }

  /** The points are not negative, the level is on the ladder, and every level above the
      second took 100 more points. */
  predicate ScoreOk(score: int, level: int, next: int) {
    Ladder(level, next) && 0 <= score && 100 * (level - 2) <= score
  }

  /** One progression step on the ladder: the level rises by at most one, and it rises
      exactly when the score has reached 100 points per level above the first; the
      ladder is kept, and so is the bound of the level by the score. */
  lemma ProgressStep(score: int, level: int, next: int)
    requires ScoreOk(score, level, next)
    ensures var (l, n) := Progress(score, level, next);
      && ScoreOk(score, l, n)
      && (l == level + 1 <==> score >= 100 * (level - 1))
      && (l == level <==> score < 100 * (level - 1))
  {
  }

  /** The threshold starts at 0, so the first update already raises level 1 to 2, whatever
      the score. */
  lemma FirstUpdateRaisesLevel(score: int)
    requires score >= 0
    ensures Progress(score, 1, 0) == (2, 100)
  {
  }

  /** On the ladder, a win (a level above 4) needs at least 300 points. */
  lemma WinNeedsPoints(score: int, level: int, next: int)
    requires ScoreOk(score, level, next) && level > 4
    ensures score >= 300
  {
  }

  /** The sprite `mDraggingSprite` holds, as a list: empty when it holds none. */
  function Held(d: AnimatedSprite?): (r: seq<AnimatedSprite>)
    ensures d != null <==> r == [d]
    ensures d == null <==> r == []
  {
    if d == null then [] else [d]
  }

  /** The collision thread `collisionThread` holds, as a list: empty before `start()`. */
  function Thread(c: CollisionThread?): (r: seq<CollisionThread>)
    ensures c != null <==> r == [c]
    ensures c == null <==> r == []
  {
    if c == null then [] else [c]
  }

  class GamePanel {
    const images: Images                   // mBitmaps
    const screen: Screen
    const player: AnimatedSprite           // mPlayer
    var density: real                      // mDisplayDensity
    var backgroundSpeed: real              // mBackgroundSpeed
    var score: int                         // mScore
    var level: int                         // mLevel
    var nextLevelScore: int                // mNextLevelScore
    var playerHP: int                      // mPlayerHP
    var lastHitTime: Long                  // mLastHitTime
    var lastBulletTime: Long               // mLastBulletTime
    var backgroundY: real                  // mBackgroundY
    var isGameOver: bool, isGameWin: bool, isGameStart: bool
    var sprites: seq<AnimatedSprite>       // mSprites
    var enemies: seq<AnimatedSprite>       // mEnemy
    var bullets: seq<AnimatedSprite>       // mBullets
    var draggingSprite: AnimatedSprite?    // mDraggingSprite
    var collision: CollisionThread?        // collisionThread

    /** What every step keeps: each list holds a sprite at most once; the enemies and the
        bullets are enemies and bullets, and all of them are in the sprite list (every add
        and remove on those lists is paired with one on the sprite list); the level is on
        the ladder and bounded by the points; a win means a level above 4, and the game is
        over exactly when the hit points are used up. */
    ghost predicate Valid()
      reads this
    {
      && ListsOk(sprites, enemies, bullets)
      && ScoreOk(score, level, nextLevelScore)
      && (isGameWin ==> level > 4)
      && (isGameOver <==> playerHP <= 0)
    }

    /** A game that is won has at least 300 points. */
    lemma WonWithPoints()
      requires Valid() && isGameWin
      ensures score >= 300
    {
      WinNeedsPoints(score, level, nextLevelScore);
    }

    /** `new GamePanel(context, attrs)`: level 1, threshold 0, three hit points, no points,
        empty lists, and a new player sprite. */
    constructor (images: Images, screen: Screen)
      ensures Valid()
      ensures this.images == images && this.screen == screen
      ensures fresh(player) && player.Valid() && player.kind == PLAYER && player.bitmap == images.player
      ensures player.numFrames == SPRITE_FRAMES && player.frameMillis == FrameMillis(SPRITE_FPS)
      ensures player.x == 0.0 && player.y == 0.0 && player.scale == 1.0 && !player.draggable && !player.dragging
      ensures score == 0 && level == 1 && nextLevelScore == 0 && playerHP == START_HP
      ensures lastHitTime == 0 && lastBulletTime == 0 && backgroundY == 0.0 && density == 0.0 && backgroundSpeed == 0.0
      ensures !isGameOver && !isGameWin && !isGameStart
      ensures sprites == [] && enemies == [] && bullets == [] && draggingSprite == null && collision == null
    {
      this.images := images;
      this.screen := screen;
      player := new AnimatedSprite(images.player, SPRITE_FRAMES, SPRITE_FPS, PLAYER);
      density, backgroundSpeed := 0.0, 0.0;
      score, level, nextLevelScore, playerHP := 0, 1, 0, START_HP;
      lastHitTime, lastBulletTime := 0, 0;
      backgroundY := 0.0;
      isGameOver, isGameWin, isGameStart := false, false, false;
      sprites, enemies, bullets := [], [], [];
      draggingSprite, collision := null, null;
    }

    /** `start()` with the display density `density`: the background speed follows the
        density; the player is placed at the centre of the view (the halves are integer
        divisions, and the clamp uses the scale the player had), then scaled to half the
        density, made draggable and added to the sprites; a collision thread is made over
        the view with 100-unit cells. The activity calls `start()` each time its surface
        is created; from the second call on the sprite list holds the player twice and
        the lists are no longer in step. */
    method Start(density: real)
      requires Valid() && JavaDiv(screen.viewWidth, GRID_SIZE) >= -1 && JavaDiv(screen.viewHeight, GRID_SIZE) >= -1
      modifies this`density, this`backgroundSpeed, this`sprites, this`collision
      modifies player`x, player`y, player`scale, player`draggable
      ensures Valid() <==> old(player !in sprites)
      ensures this.density == density && backgroundSpeed == 50.0 * density
      ensures player.x == ClampCentre(JavaDiv(screen.viewWidth, 2) as real, player.frameWidth as real * old(player.scale), screen.width)
      ensures player.y == ClampCentre(JavaDiv(screen.viewHeight, 2) as real, player.bitmap.height as real * old(player.scale), screen.height)
      ensures player.scale == density / 2.0 && player.draggable
      ensures sprites == old(sprites) + [player]
      ensures fresh(collision) && collision.Valid() && collision.running
      ensures collision.gridSize == GRID_SIZE && collision.screenWidth == screen.viewWidth && collision.screenHeight == screen.viewHeight
    {
      this.density := density;
      backgroundSpeed := 50.0 * density;
      PlacePlayer(density);
      AddPlayer();
      collision := new CollisionThread(GRID_SIZE, screen.viewWidth, screen.viewHeight);
    }

    /** The player's part of `start()`: at the centre of the view (integer halves), then
        scaled to half the density and made draggable. */
    method PlacePlayer(density: real)
      modifies player`x, player`y, player`scale, player`draggable
      ensures player.x == ClampCentre(JavaDiv(screen.viewWidth, 2) as real, player.frameWidth as real * old(player.scale), screen.width)
      ensures player.y == ClampCentre(JavaDiv(screen.viewHeight, 2) as real, player.bitmap.height as real * old(player.scale), screen.height)
      ensures player.scale == density / 2.0 && player.draggable
    {
      player.SetPosition(JavaDiv(screen.viewWidth, 2) as real, JavaDiv(screen.viewHeight, 2) as real, screen.width, screen.height);
      player.SetScale(density / 2.0);
      player.SetDraggable(true);
    }

    /** `mSprites.add(mPlayer)`. The list takes the player again on a second `start()`,
        and then holds it twice. */
    method AddPlayer()
      requires Valid()
      modifies this`sprites
      ensures sprites == old(sprites) + [player]
      ensures Valid() <==> old(player !in sprites)
    {
      if player !in sprites {
        AddSpriteOk(sprites, enemies, bullets, player);
      } else {
        AppendPresent(sprites, player);
      }
      sprites := sprites + [player];
    }

    /** `update(deltaTime)` at time `now`, with one draw of `Math.random()` per enemy.
        Once the game is over or won the step is 0, the player is let go and the collision
        thread shut down. Then the level rises when the points reach the threshold, a level
        above 4 wins, the background scrolls, a bullet may be fired (`fired`), every enemy
        takes its step, every bullet moves and those above the top edge leave both lists:
        a sprite stays in a list exactly when it was there or was just fired, and is not
        a bullet above the top edge. */
    method Update(dt: real, now: Long, randoms: seq<real>) returns (ghost fired: seq<AnimatedSprite>)
      requires Valid() && |randoms| == |enemies|
      requires (isGameOver || isGameWin) ==> collision != null
      modifies this`level, this`nextLevelScore, this`isGameWin, this`backgroundY, this`lastBulletTime
      modifies this`bullets, this`sprites, player`dragging, Thread(collision)`running
      modifies enemies`x, enemies`y, bullets`x, bullets`y
      ensures Valid()
      ensures var stop := old(isGameOver || isGameWin);
        && (stop ==> !player.dragging && collision != null && !collision.running)
        && (!stop ==> player.dragging == old(player.dragging) && (collision != null ==> collision.running == old(collision.running)))
        && (level, nextLevelScore) == Progress(old(score), old(level), old(nextLevelScore))
        && isGameWin == (old(isGameWin) || level > 4)
        && backgroundY == Scroll(old(backgroundY), backgroundSpeed * (if stop then 0.0 else dt), images.water.height)
        && var fire := !stop && Elapsed(now, old(lastBulletTime)) > BULLET_INTERVAL && old(player.IsDragging());
           && lastBulletTime == (if fire then now else old(lastBulletTime))
           && |fired| == (if fire then 1 else 0)
      ensures var step := if old(isGameOver || isGameWin) then 0.0 else dt;
        && (forall b :: b in fired ==>
              && fresh(b) && b.kind == BULLET && b.xSpeed == 0.0 && b.ySpeed == BULLET_SPEED * density
              && PoseOf(b) == Pose(Advance(old(NextMuzzle()).x, b.xSpeed, step), Advance(old(NextMuzzle()).y, b.ySpeed, step)))
        && enemies == old(enemies)
        && (forall k :: 0 <= k < |enemies| ==>
              PoseOf(enemies[k]) == EnemyStep(old(PoseOf(enemies[k])), enemies[k].xSpeed, enemies[k].ySpeed, step,
                                              randoms[k], BoxWidth(enemies[k]), BoxHeight(enemies[k]), screen))
        && (forall k :: 0 <= k < |old(bullets)| ==>
              var b := old(bullets)[k];
              PoseOf(b) == Pose(Advance(old(b.x), b.xSpeed, step), Advance(old(b.y), b.ySpeed, step)))
      ensures forall x :: x in bullets <==> (x in old(bullets) || x in fired) && x.y >= 0.0
      ensures forall x :: x in sprites <==> (x in old(sprites) || x in fired) && (x in old(bullets) || x in fired ==> x.y >= 0.0)
    {
      ghost var bs := bullets;
      var step;
      step, fired := BeginUpdate(dt, now);
      MoveAfterFiring(step, randoms, bs, fired);
    }

    /** The part of `update` before the sprites move; it returns the step the sprites
        then take and the bullet `fired`, if there is one. */
    method BeginUpdate(dt: real, now: Long) returns (step: real, ghost fired: seq<AnimatedSprite>)
      requires Valid()
      requires (isGameOver || isGameWin) ==> collision != null
      modifies this`level, this`nextLevelScore, this`isGameWin, this`backgroundY, this`lastBulletTime
      modifies this`bullets, this`sprites, player`dragging, Thread(collision)`running
      ensures Valid()
      ensures var stop := old(isGameOver || isGameWin);
        && step == (if stop then 0.0 else dt)
        && (stop ==> !player.dragging && collision != null && !collision.running)
        && (!stop ==> player.dragging == old(player.dragging) && (collision != null ==> collision.running == old(collision.running)))
        && (level, nextLevelScore) == Progress(old(score), old(level), old(nextLevelScore))
        && isGameWin == (old(isGameWin) || level > 4)
        && backgroundY == Scroll(old(backgroundY), backgroundSpeed * step, images.water.height)
        && var fire := !stop && Elapsed(now, old(lastBulletTime)) > BULLET_INTERVAL && old(player.IsDragging());
           && lastBulletTime == (if fire then now else old(lastBulletTime))
           && |fired| == (if fire then 1 else 0)
      ensures enemies == old(enemies) && bullets == old(bullets) + fired && sprites == old(sprites) + fired
      ensures forall b :: b in fired ==>
        && fresh(b) && b.kind == BULLET && b.xSpeed == 0.0 && b.ySpeed == BULLET_SPEED * density
        && PoseOf(b) == old(NextMuzzle())
    {
      step := dt;
      if isGameOver || isGameWin {
        step := 0.0;
        assert collision in Thread(collision);
        HaltPlay();
      }
      AdvanceLevel();
      UpdateBackground(step);
      ghost var bs := bullets;
      FireBullets(now);
      fired := bullets[|bs|..];
      assert bullets == bs + fired;
    }

    /** `MoveSprites` after a firing, told apart by where the bullets came from: the
        list of bullets is the earlier bullets `bs` followed by the bullets just `fired`. */
    method MoveAfterFiring(dt: real, randoms: seq<real>, ghost bs: seq<AnimatedSprite>, ghost fired: seq<AnimatedSprite>)
      requires Valid() && |randoms| == |enemies| && bullets == bs + fired
      modifies this`bullets, this`sprites, enemies`x, enemies`y, bullets`x, bullets`y
      ensures Valid()
      ensures enemies == old(enemies)
      ensures forall k :: 0 <= k < |enemies| ==>
        PoseOf(enemies[k]) == EnemyStep(old(PoseOf(enemies[k])), enemies[k].xSpeed, enemies[k].ySpeed, dt, randoms[k],
                                        BoxWidth(enemies[k]), BoxHeight(enemies[k]), screen)
      ensures forall k :: 0 <= k < |bs| ==>
        var b := bs[k];
        PoseOf(b) == Pose(Advance(old(b.x), b.xSpeed, dt), Advance(old(b.y), b.ySpeed, dt))
      ensures forall j :: 0 <= j < |fired| ==>
        var b := fired[j];
        PoseOf(b) == Pose(Advance(old(b.x), b.xSpeed, dt), Advance(old(b.y), b.ySpeed, dt))
      ensures forall x :: x in bullets <==> (x in bs || x in fired) && x.y >= 0.0
      ensures forall x :: x in sprites <==> x in old(sprites) && (x in bs || x in fired ==> x.y >= 0.0)
    {
      ghost var moved := bullets;
      assert forall k :: 0 <= k < |bs| ==> moved[k] == bs[k];
      assert forall j :: 0 <= j < |fired| ==> moved[|bs| + j] == fired[j];
      MoveSprites(dt, randoms);
    }

    /** The last two calls of `update`: `updateEnemies(deltaTime)`, then
        `updateBullets(deltaTime)`. */
    method MoveSprites(dt: real, randoms: seq<real>)
      requires Valid() && |randoms| == |enemies|
      modifies this`bullets, this`sprites, enemies`x, enemies`y, bullets`x, bullets`y
      ensures Valid()
      ensures enemies == old(enemies)
      ensures forall k :: 0 <= k < |enemies| ==>
        PoseOf(enemies[k]) == EnemyStep(old(PoseOf(enemies[k])), enemies[k].xSpeed, enemies[k].ySpeed, dt, randoms[k],
                                        BoxWidth(enemies[k]), BoxHeight(enemies[k]), screen)
      ensures forall k :: 0 <= k < |old(bullets)| ==>
        var b := old(bullets)[k];
        PoseOf(b) == Pose(Advance(old(b.x), b.xSpeed, dt), Advance(old(b.y), b.ySpeed, dt))
      ensures forall x :: x in bullets <==> x in old(bullets) && x.y >= 0.0
      ensures forall x :: x in sprites <==> x in old(sprites) && (x in old(bullets) ==> x.y >= 0.0)
    {
      MoveEnemies(dt, randoms);
      forall e | e in enemies ensures e !in bullets {
        OtherKind(bullets, BULLET, e);
      }
      MoveBullets(dt);
    }

    /** The branch of `update` for a game that is over or won: the player is let go and
        the collision thread is shut down. */
    method HaltPlay()
      requires collision != null
      modifies player`dragging, collision`running
      ensures !player.dragging && !collision.running
    {
      player.SetDragging(false);
      collision.ShutDown();
    }

    /** The level check of `update`: one level up, and the threshold 100 points further,
        when the points have reached it; a level above 4 wins the game. */
    method AdvanceLevel()
      requires Valid()
      modifies this`level, this`nextLevelScore, this`isGameWin
      ensures Valid()
      ensures (level, nextLevelScore) == Progress(old(score), old(level), old(nextLevelScore))
      ensures isGameWin == (old(isGameWin) || level > 4)
    {
      ProgressStep(score, level, nextLevelScore);
      if score >= nextLevelScore {
        level := level + 1;
        nextLevelScore := nextLevelScore + 100;
      }
      if level > 4 {
        isGameWin := true;
      }
    }

    /** `updateEnemies(deltaTime)` on the panel's enemies, with one draw per enemy; the
        bullets do not move. */
    method MoveEnemies(dt: real, randoms: seq<real>)
      requires Valid() && |randoms| == |enemies|
      modifies enemies`x, enemies`y
      ensures forall k :: 0 <= k < |enemies| ==>
        PoseOf(enemies[k]) == EnemyStep(old(PoseOf(enemies[k])), enemies[k].xSpeed, enemies[k].ySpeed, dt, randoms[k],
                                        BoxWidth(enemies[k]), BoxHeight(enemies[k]), screen)
      ensures forall b :: b in bullets ==> PoseOf(b) == old(PoseOf(b))
    {
      forall b | b in bullets ensures b !in enemies {
        OtherKind(enemies, ENEMY, b);
      }
      UpdateEnemies(enemies, dt, randoms, screen);
    }

    /** `updateBullets(deltaTime)` on the panel's lists: every bullet moves, a bullet is
        kept in both lists exactly when it is then on or below the top edge, and the
        enemies do not move. */
    method MoveBullets(dt: real)
      requires Valid()
      modifies this`bullets, this`sprites, bullets`x, bullets`y
      ensures Valid()
      ensures forall k :: 0 <= k < |old(bullets)| ==>
        PoseOf(old(bullets)[k]) == Pose(Advance(old(bullets[k].x), old(bullets)[k].xSpeed, dt), Advance(old(bullets[k].y), old(bullets)[k].ySpeed, dt))
      ensures forall k :: 0 <= k < |old(bullets)| ==>
        (old(bullets)[k] in bullets <==> old(bullets)[k].y >= 0.0) && (old(bullets)[k] in sprites <==> old(bullets)[k].y >= 0.0)
      ensures forall b :: b in bullets ==> b.y >= 0.0
      ensures bullets == Survivors(old(bullets), Heights(old(bullets)), |old(bullets)|)
      ensures sprites == WithoutAll(old(sprites), Fallen(old(bullets), Heights(old(bullets)), |old(bullets)|))
      ensures forall x :: x in bullets <==> x in old(bullets) && x.y >= 0.0
      ensures forall x :: x in sprites <==> x in old(sprites) && (x in old(bullets) ==> x.y >= 0.0)
    {
      var bs, ss := bullets, sprites;
      var kept, rest := UpdateBullets(bs, ss, dt);
      KeepBullets(kept, rest);
    }

    /** The lists `updateBullets` leaves, made the panel's: the survivors of the moved
        bullets, and the sprites without the bullets that left. */
    method KeepBullets(kept: seq<AnimatedSprite>, rest: seq<AnimatedSprite>)
      requires Valid()
      requires kept == Survivors(bullets, Heights(bullets), |bullets|)
      requires rest == WithoutAll(sprites, Fallen(bullets, Heights(bullets), |bullets|))
      modifies this`bullets, this`sprites
      ensures Valid() && bullets == kept && sprites == rest
      ensures forall k :: 0 <= k < |old(bullets)| ==>
        var b := old(bullets)[k];
        (b in bullets <==> b.y >= 0.0) && (b in sprites <==> b.y >= 0.0)
      ensures forall b :: b in bullets ==> b.y >= 0.0
      ensures forall x :: x in bullets <==> x in old(bullets) && x.y >= 0.0
      ensures forall x :: x in sprites <==> x in old(sprites) && (x in old(bullets) ==> x.y >= 0.0)
    {
      BulletsLeaveTogether(bullets, enemies, sprites, Heights(bullets));
      BulletsKeptExactly(bullets, enemies, sprites);
      BulletsOnScreen(bullets);
      bullets, sprites := kept, rest;
    }

    /** `updateBackground(deltaTime)`: the offset scrolls by speed times time, through the
        water bitmap's height. */
    method UpdateBackground(dt: real)
      modifies this`backgroundY
      ensures backgroundY == Scroll(old(backgroundY), backgroundSpeed * dt, images.water.height)
    {
      backgroundY := backgroundY + backgroundSpeed * dt;
      if backgroundY > images.water.height as real {
        backgroundY := backgroundY - images.water.height as real;
      }
    }

    /** Where a bullet fired now starts. */
    function NextMuzzle(): Pose
      reads player
    {
      Muzzle(JavaDiv(images.bullet.width, SPRITE_FRAMES) as real, images.bullet.height as real,
             player.x, player.y, BoxHeight(player), screen)
    }

    /** The bullet `fireBullets` makes: a player's height above the player, rising at 300
        units per unit of density. */
    method NewBullet() returns (b: AnimatedSprite)
      ensures fresh(b) && b !in sprites && b.Valid() && b.kind == BULLET && b.bitmap == images.bullet
      ensures b.numFrames == SPRITE_FRAMES && b.frameMillis == FrameMillis(SPRITE_FPS) && b.scale == 1.0
      ensures b.xSpeed == 0.0 && b.ySpeed == BULLET_SPEED * density
      ensures PoseOf(b) == NextMuzzle()
    {
      b := new AnimatedSprite(images.bullet, SPRITE_FRAMES, SPRITE_FPS, BULLET);
      b.SetPosition(player.x, player.y - BoxHeight(player), screen.width, screen.height);
      b.SetSpeed(0.0, BULLET_SPEED * density);
    }

    /** `fireBullets()` at time `now`: when more than 500 ms have passed since the last
        shot and the player is being dragged, the time is recorded and one new bullet
        (`NewBullet`) is added to both lists; otherwise nothing changes. */
    method FireBullets(now: Long)
      requires Valid()
      modifies this`lastBulletTime, this`bullets, this`sprites
      ensures Valid()
      ensures var fire := Elapsed(now, old(lastBulletTime)) > BULLET_INTERVAL && player.IsDragging();
        && (!fire ==> lastBulletTime == old(lastBulletTime) && bullets == old(bullets) && sprites == old(sprites))
        && (fire ==> lastBulletTime == now && |bullets| == |old(bullets)| + 1 && bullets[..|old(bullets)|] == old(bullets)
                     && sprites == old(sprites) + [bullets[|old(bullets)|]])
      ensures |bullets| > |old(bullets)| ==>
        var b := bullets[|old(bullets)|];
        && fresh(b) && b.Valid() && b.kind == BULLET && b.bitmap == images.bullet
        && b.numFrames == SPRITE_FRAMES && b.frameMillis == FrameMillis(SPRITE_FPS)
        && b.xSpeed == 0.0 && b.ySpeed == BULLET_SPEED * density && b.scale == 1.0
        && PoseOf(b) == NextMuzzle()
    {
      if Elapsed(now, lastBulletTime) > BULLET_INTERVAL && player.IsDragging() {
        var ss, es, bs := sprites, enemies, bullets;
        var b := NewBullet();
        AddBulletOk(ss, es, bs, b);
        bullets := bs + [b];
        sprites := ss + [b];
        lastBulletTime := now;
        assert bullets[..|bs|] == bs;
      }
    }

    /** The enemy `spawnEnemy` makes from the two draws `r1` and `r2` of `Math.random()`:
        the first picks its type from the level, which gives its bitmap and its downward
        speed; the second its column; it starts at the top. */
    method NewEnemy(r1: real, r2: real) returns (enemy: AnimatedSprite)
      ensures var c := EnemyColour(EnemyType(r1, level));
        && fresh(enemy) && enemy !in sprites && enemy.Valid() && enemy.kind == ENEMY && enemy.bitmap == EnemyBitmap(images, c)
        && enemy.numFrames == SPRITE_FRAMES && enemy.frameMillis == FrameMillis(SPRITE_FPS) && enemy.scale == 1.0
        && enemy.xSpeed == 0.0 && enemy.ySpeed == EnemySpeed(c, density, level)
      ensures PoseOf(enemy) == TopPose(r2, BoxWidth(enemy), BoxHeight(enemy), screen)
    {
      var colour := EnemyColour(EnemyType(r1, level));
      enemy := new AnimatedSprite(EnemyBitmap(images, colour), SPRITE_FRAMES, SPRITE_FPS, ENEMY);
      enemy.SetSpeed(0.0, EnemySpeed(colour, density, level));
      PlaceAtTop(enemy, r2, screen);
    }

    /** `spawnEnemy()` with the two draws `r1` and `r2`: a new enemy (`NewEnemy`) is added
        to both lists. */
    method SpawnEnemy(r1: real, r2: real) returns (enemy: AnimatedSprite)
      requires Valid()
      modifies this`enemies, this`sprites
      ensures Valid()
      ensures fresh(enemy) && enemies == old(enemies) + [enemy] && sprites == old(sprites) + [enemy]
      ensures var c := EnemyColour(EnemyType(r1, level));
        && enemy.Valid() && enemy.kind == ENEMY && enemy.bitmap == EnemyBitmap(images, c)
        && enemy.numFrames == SPRITE_FRAMES && enemy.frameMillis == FrameMillis(SPRITE_FPS) && enemy.scale == 1.0
        && enemy.xSpeed == 0.0 && enemy.ySpeed == EnemySpeed(c, density, level)
      ensures PoseOf(enemy) == TopPose(r2, BoxWidth(enemy), BoxHeight(enemy), screen)
    {
      var ss, es, bs := sprites, enemies, bullets;
      enemy := NewEnemy(r1, r2);
      AddEnemyOk(ss, es, bs, enemy);
      enemies := es + [enemy];
      sprites := ss + [enemy];
    }

    /** One run of `mActivateEnemyTask` with the draws `r1` and `r2`: nothing once the game
        is over or won, and no new run is asked for; otherwise, a new enemy when the game
        has started and fewer than 10 enemies are out, and the next run is asked for
        `2000 / level` ms later. */
    method ActivateEnemyTask(r1: real, r2: real) returns (delay: Option<int>)
      requires Valid()
      modifies this`enemies, this`sprites
      ensures Valid()
      ensures old(isGameOver || isGameWin) <==> delay.None?
      ensures delay.Some? ==> delay.value == 2000 / level
      ensures var spawn := !(isGameOver || isGameWin) && |old(enemies)| < MAX_ENEMIES && isGameStart;
        && (!spawn ==> enemies == old(enemies) && sprites == old(sprites))
        && (spawn ==> |enemies| == |old(enemies)| + 1 && enemies[..|old(enemies)|] == old(enemies)
                      && sprites == old(sprites) + [enemies[|old(enemies)|]]
                      && var e, c := enemies[|old(enemies)|], EnemyColour(EnemyType(r1, level));
                         && fresh(e) && e.Valid() && e.kind == ENEMY && e.bitmap == EnemyBitmap(images, c)
                         && e.numFrames == SPRITE_FRAMES && e.frameMillis == FrameMillis(SPRITE_FPS) && e.scale == 1.0
                         && e.xSpeed == 0.0 && e.ySpeed == EnemySpeed(c, density, level)
                         && PoseOf(e) == TopPose(r2, BoxWidth(e), BoxHeight(e), screen))
    {
      if isGameOver || isGameWin {
        return None;
      }
      if |enemies| < MAX_ENEMIES {
        if isGameStart {
          var e := SpawnEnemy(r1, r2);
          assert enemies[..|old(enemies)|] == old(enemies);
        }
      }
      delay := Some(JavaDiv(2000, level));
    }

    /** The sprite `spawnExplosion(sprite)` makes: a still explosion at `s`'s position. */
    method NewExplosion(s: AnimatedSprite) returns (explosion: AnimatedSprite)
      ensures fresh(explosion) && explosion !in sprites && explosion.Valid() && explosion.kind == EXPLOSION
      ensures explosion.bitmap == images.explosion
      ensures explosion.numFrames == SPRITE_FRAMES && explosion.frameMillis == FrameMillis(SPRITE_FPS) && explosion.scale == 1.0
      ensures explosion.xSpeed == 0.0 && explosion.ySpeed == 0.0
      ensures explosion.x == ClampCentre(s.x, BoxWidth(explosion), screen.width)
      ensures explosion.y == ClampCentre(s.y, BoxHeight(explosion), screen.height)
    {
      explosion := new AnimatedSprite(images.explosion, SPRITE_FRAMES, SPRITE_FPS, EXPLOSION);
      explosion.SetPosition(s.x, s.y, screen.width, screen.height);
      explosion.SetSpeed(0.0, 0.0);
    }

    /** `spawnExplosion(sprite)`: a new explosion (`NewExplosion`) at `s` is added to the sprites. */
    method SpawnExplosion(s: AnimatedSprite) returns (explosion: AnimatedSprite)
      requires Valid()
      modifies this`sprites
      ensures Valid()
      ensures fresh(explosion) && sprites == old(sprites) + [explosion] && explosion.kind == EXPLOSION
      ensures explosion.x == ClampCentre(s.x, BoxWidth(explosion), screen.width)
      ensures explosion.y == ClampCentre(s.y, BoxHeight(explosion), screen.height)
    {
      var ss, es, bs := sprites, enemies, bullets;
      explosion := NewExplosion(s);
      AddSpriteOk(ss, es, bs, explosion);
      sprites := ss + [explosion];
    }

    /** The runnable `spawnExplosion` posts for 3000 ms later: the explosion leaves the sprites. */
    method RemoveExplosion(explosion: AnimatedSprite)
      requires Valid() && explosion.kind == EXPLOSION
      modifies this`sprites
      ensures Valid()
      ensures sprites == Without(old(sprites), explosion)
      ensures explosion !in sprites
    {
      RemoveSpriteOk(sprites, enemies, bullets, explosion);
      sprites := Without(sprites, explosion);
    }

    /** `onPlayerEnemyCollision(player, enemy)` at time `now`: within 3000 ms of the last
        hit nothing changes; otherwise an explosion appears at the player, the player loses
        one hit point, the time is recorded, the game is over when no hit points are left,
        and the enemy leaves both lists. */
    method OnPlayerEnemyCollision(p: AnimatedSprite, e: AnimatedSprite, now: Long)
      requires Valid() && e.kind == ENEMY
      modifies this`playerHP, this`lastHitTime, this`isGameOver, this`enemies, this`sprites
      ensures Valid()
      ensures !Vulnerable(now, old(lastHitTime)) ==>
        && playerHP == old(playerHP) && lastHitTime == old(lastHitTime) && isGameOver == old(isGameOver)
        && enemies == old(enemies) && sprites == old(sprites)
      ensures Vulnerable(now, old(lastHitTime)) ==>
        && playerHP == old(playerHP) - 1 && lastHitTime == now && isGameOver == (playerHP <= 0)
        && enemies == Without(old(enemies), e) && e !in enemies && e !in sprites
        && |sprites| > 0 && sprites[..|sprites| - 1] == Without(old(sprites), e)
        && var ex := sprites[|sprites| - 1];
           fresh(ex) && ex.kind == EXPLOSION && ex.x == ClampCentre(p.x, BoxWidth(ex), screen.width)
           && ex.y == ClampCentre(p.y, BoxHeight(ex), screen.height)
    {
      if Vulnerable(now, lastHitTime) {
        var ex := NewExplosion(p);
        LoseHitPoint(now);
        ExplodeEnemy(ex, e);
      }
    }

    /** The player's part of a hit: one hit point less, the time recorded, and the game
        over once no hit points are left. */
    method LoseHitPoint(now: Long)
      requires Valid()
      modifies this`playerHP, this`lastHitTime, this`isGameOver
      ensures Valid()
      ensures playerHP == old(playerHP) - 1 && lastHitTime == now && isGameOver == (playerHP <= 0)
    {
      playerHP := playerHP - 1;
      lastHitTime := now;
      isGameOver := isGameOver || playerHP <= 0;
    }

    /** The lists' part of a hit on the player: the explosion `ex` joins the sprites and
        the enemy `e` leaves both lists. */
    method ExplodeEnemy(ex: AnimatedSprite, e: AnimatedSprite)
      requires Valid() && ex !in sprites && ex.kind == EXPLOSION && e.kind == ENEMY
      modifies this`enemies, this`sprites
      ensures Valid()
      ensures enemies == Without(old(enemies), e) && e !in enemies && e !in sprites
      ensures sprites == Without(old(sprites), e) + [ex]
    {
      EnemyHitOk(sprites, enemies, bullets, ex, e);
      sprites := Without(sprites + [ex], e);
      enemies := Without(enemies, e);
    }

    /** `onBulletEnemyCollision(bullet, enemy)`: an explosion appears at the enemy, the
        score rises by 10, and the bullet and the enemy leave their lists and the sprites. */
    method OnBulletEnemyCollision(b: AnimatedSprite, e: AnimatedSprite)
      requires Valid() && b.kind == BULLET && e.kind == ENEMY
      modifies this`score, this`bullets, this`enemies, this`sprites
      ensures Valid()
      ensures score == old(score) + HIT_SCORE
      ensures bullets == Without(old(bullets), b) && enemies == Without(old(enemies), e)
      ensures b !in bullets && b !in sprites && e !in enemies && e !in sprites
      ensures |sprites| > 0 && sprites[..|sprites| - 1] == Without(Without(old(sprites), b), e)
      ensures var ex := sprites[|sprites| - 1];
        fresh(ex) && ex.kind == EXPLOSION && ex.x == ClampCentre(e.x, BoxWidth(ex), screen.width)
        && ex.y == ClampCentre(e.y, BoxHeight(ex), screen.height)
    {
      var ex := NewExplosion(e);
      AddHitScore();
      var ss := sprites;
      RemoveBullet(b);
      WithoutWithin(ss, b, ex);
      var s1 := sprites;
      ExplodeEnemy(ex, e);
      WithoutWithin(s1, e, b);
      assert sprites[..|sprites| - 1] == Without(s1, e);
    }

    /** The score's part of a hit on an enemy: 10 more points. */
    method AddHitScore()
      requires Valid()
      modifies this`score
      ensures Valid()
      ensures score == old(score) + HIT_SCORE
    {
      score := score + HIT_SCORE;
    }

    /** Removing the bullet `b` from the bullet list, then from the sprite list. */
    method RemoveBullet(b: AnimatedSprite)
      requires Valid() && b.kind == BULLET
      modifies this`bullets, this`sprites
      ensures Valid()
      ensures bullets == Without(old(bullets), b) && sprites == Without(old(sprites), b)
      ensures b !in bullets && b !in sprites
    {
      RemoveBulletOk(sprites, enemies, bullets, b);
      sprites := Without(sprites, b);
      bullets := Without(bullets, b);
    }

    /** `onTouchEvent(event)`, which always reports the event handled. A press picks the
        first sprite under it that can be dragged and starts dragging it; a move, while a
        sprite is held, starts the game and moves that sprite to the touch point clamped to
        the display; a release stops dragging the held sprite and lets it go. */
    method OnTouchEvent(ev: MotionEvent) returns (handled: bool)
      requires Valid()
      modifies this`draggingSprite, this`isGameStart, sprites`dragging, Held(draggingSprite)`x, Held(draggingSprite)`y
      modifies Held(draggingSprite)`dragging
      ensures handled
      ensures ev.action == ActionDown ==>
        var k := old(FirstTouched(sprites, ev.x, ev.y));
        && isGameStart == old(isGameStart)
        && (k < |sprites| ==> draggingSprite == sprites[k] && sprites[k].dragging)
        && (k == |sprites| ==> draggingSprite == old(draggingSprite))
        && (old(draggingSprite) != null && old(draggingSprite) !in sprites ==> old(draggingSprite).dragging == old(draggingSprite.dragging))
        && forall j :: 0 <= j < |sprites| && j != k ==> sprites[j].dragging == old(sprites[j].dragging)
      ensures ev.action == ActionMove ==>
        && draggingSprite == old(draggingSprite)
        && isGameStart == (old(isGameStart) || draggingSprite != null)
        && (draggingSprite != null ==>
              && draggingSprite.x == ClampCentre(ev.x, BoxWidth(draggingSprite), screen.width)
              && draggingSprite.y == ClampCentre(ev.y, BoxHeight(draggingSprite), screen.height)
              && draggingSprite.dragging == old(draggingSprite.dragging))
        && forall j :: 0 <= j < |sprites| ==> sprites[j].dragging == old(sprites[j].dragging)
      ensures ev.action == ActionUp ==>
        && draggingSprite == null && isGameStart == old(isGameStart)
        && (old(draggingSprite) != null ==> !old(draggingSprite).dragging)
        && forall j :: 0 <= j < |sprites| && sprites[j] != old(draggingSprite) ==> sprites[j].dragging == old(sprites[j].dragging)
      ensures ev.action != ActionMove && old(draggingSprite) != null ==>
        old(draggingSprite).x == old(draggingSprite.x) && old(draggingSprite).y == old(draggingSprite.y)
      ensures ev.action == ActionOther ==>
        && draggingSprite == old(draggingSprite) && isGameStart == old(isGameStart)
        && (old(draggingSprite) != null ==> old(draggingSprite).dragging == old(draggingSprite.dragging))
        && forall j :: 0 <= j < |sprites| ==> sprites[j].dragging == old(sprites[j].dragging)
    {
      match ev.action {
        case ActionDown =>
          var i := 0;
          while i < |sprites| && !(sprites[i].draggable && sprites[i].IsTouched(ev.x, ev.y))
            invariant 0 <= i <= |sprites|
            invariant forall k :: 0 <= k < i ==> !sprites[k].IsTouched(ev.x, ev.y)
          {
            i := i + 1;
          }
          if i < |sprites| {
            draggingSprite := sprites[i];
            draggingSprite.SetDragging(true);
          }
        case ActionMove =>
          if draggingSprite != null {
            if !isGameStart {
              isGameStart := true;
            }
            assert draggingSprite in Held(draggingSprite);
            draggingSprite.SetPosition(ev.x, ev.y, screen.width, screen.height);
          }
        case ActionUp =>
          if draggingSprite != null {
            assert draggingSprite in Held(draggingSprite);
            draggingSprite.SetDragging(false);
            draggingSprite := null;
          }
        case ActionOther =>
      }
      return true;
    }
  }
}

