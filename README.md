# Falcon Strike core, modelled in Dafny

Falcon Strike is an Android arcade shooter. The player drags a plane around the screen, and while it is dragged the plane fires bullets upward. Enemies fall from the top; a bullet that hits one scores 10 points, and an enemy that hits the player costs a hit point. The repository holds two copies of the game:

- `com/example/falcon_strike_app` is the newer one: a level threshold, blinking after a hit, a collision thread;
- `com/example/falconstrikeapp` is the older one: levels at exact scores, a frame-pacing game thread and its message handler.

This project models the sequential core of both copies as Dafny classes, methods and functions, and proves what each step does.

| file | module | models |
|---|---|---|
| `java.dfy` | `Java` | Java's `long` wrap-around, the truncating `(int)` cast and integer `/`, and nullable values as `Option` |
| `geometry.dfy` | `Geometry` | `RectF` and `Rect`, the centred and scaled bounding box, and the per-axis clamp of `setPosition` |
| `lists.dfy` | `Lists` | the sprite lists as sequences: `add` is `s + [x]` and `remove(Object)` is `Without` |
| `sprites.dfy` | `Sprites` | `Sprite` and `AnimatedSprite` as one class `AnimatedSprite` (the game only makes animated sprites), used by both copies |
| `collision.dfy` | `Collision` | `CollisionThread`: the bucket grid as a 2-D array and one scan cycle (clear, fill, scan), with the listener calls returned as an event list |
| `play.dfy` | `Play` | the rules the two panels share: the enemy-type draw and colour tables, the invincibility window, scrolling, the enemy and bullet loops, and the invariant of the three sprite lists |
| `panel.dfy` | `Panel` | the newer `GamePanel`, a class over score, level, threshold, hit points, timers and lists |
| `legacy_panel.dfy` | `LegacyPanel` | the older `GamePanel`, with its own level, background and touch rules |
| `game_thread.dfy` | `FrameLoop` | the older `GameThread.doFrame`: the frame interval and the render-skip decision |
| `game_handler.dfy` | `Handler` | `GameHandler`: splitting a 64-bit timestamp into two `int` message arguments and joining it again, and the dispatch of `handleMessage` |

How the model is built:

- **The panels.** Each panel is a class whose fields are the game's fields. `Valid()` states the invariant every step keeps:
  - each list holds a sprite at most once;
  - `mEnemy` holds only enemies and `mBullets` only bullets, and both lists are contained in `mSprites`;
  - the level is backed by the points;
  - the game is over exactly when the hit points are used up.
- **Outside inputs.** Each method takes the clock reading, the draws of `Math.random()` and the screen size as parameters.
- **The collision scan.** It is specified by functions over `Body` values, one per sprite, giving its identity, type, centre and box. The thread's methods are proved to compute those functions, and lemmas about the functions state which events a cycle reports.
- **The Sprite copies.** The older `Sprite.java` is the newer one line for line, so the rows citing `falcon_strike_app/Sprite.java` cover both. The older `AnimatedSprite.java` has no `isVisible` flag, no `mHandler` and no `startBlinking`, and its `render` always draws the frame and then strokes the bounds in red. The frame it draws is `LegacyDrawnFrame`, against the newer `DrawnFrame`; the stroke is drawing and is not modelled. The older `GamePanel.java` still calls `player.startBlinking(...)` at line 303, which the older `AnimatedSprite` does not declare, so the older copy does not compile as written. `LegacyPanel.GamePanel.OnPlayerEnemyCollision` models that method without the call.
- **The handler copies.** The two copies of `GameHandler.java` are the same code. The newer `GameThread.java` is not part of this model, so `Handler` is connected to the older `GameThread` (`FrameLoop`).
- **Quirks kept as the code has them:**
  - The newer panel's level threshold starts at 0 (`Panel.FirstUpdateRaisesLevel`).
  - A hit on the player spawns the explosion at the player's position, not the enemy's.
  - `setPosition(x, -h)` pulls a new or recycled enemy down to just inside the top edge (`Play.EntersAtTop`).
  - `TARGET_FRAME_RATE` is 16,666,666 seconds written in nanoseconds (`FrameLoop.TargetFrameRate`), so in practice a render is never skipped for a slow update.

## Model

| member | source | states |
|---|---|---|
| Java.WrapLong | app/src/main/java/com/example/falconstrikeapp/GameThread.java:42 | a `long` difference is congruent to the exact one modulo 2^64 and equal to it when it is in range |
| Java.Trunc | app/src/main/java/com/example/falcon_strike_app/Sprite.java:42 | the `(int)` cast of a float lies within one of the value, on the side of zero (truncation, not floor) |
| Java.JavaDiv | app/src/main/java/com/example/falcon_strike_app/AnimatedSprite.java:32 | Java's `/` agrees with floor division on non-negative operands and truncates negative dividends toward zero |
| Geometry.IntersectsSymmetric | app/src/main/java/com/example/falcon_strike_app/Sprite.java:57-59 | `RectF.intersects` gives the same answer for both orders of the boxes |
| Geometry.ScaledBoxEdges | app/src/main/java/com/example/falcon_strike_app/AnimatedSprite.java:66-88 | the box is centred on the sprite's position and has the bitmap's size times the scale, at every scale |
| Geometry.UnscaledBox | app/src/main/java/com/example/falcon_strike_app/AnimatedSprite.java:71-75 | at scale 1 the box is the plain bitmap box around the position |
| Geometry.ClampCentreFits | app/src/main/java/com/example/falcon_strike_app/Sprite.java:119-129 | the clamp places an extent that fits on the screen inside it, leaves an already inside one where it is, and picks only the point or one of the two limits |
| Geometry.ClampedBoxInside | app/src/main/java/com/example/falcon_strike_app/Sprite.java:109-134 | after `setPosition` the sprite's box lies on the screen on every axis it fits on |
| Lists.Without | app/src/main/java/com/example/falcon_strike_app/GamePanel.java:278-281 | `List.remove` leaves a list without the element as it was and shortens one holding it by one |
| Lists.WithoutMultiset | app/src/main/java/com/example/falcon_strike_app/GamePanel.java:278-281 | `remove` takes away exactly one occurrence of the element |
| Lists.WithoutKeeps | app/src/main/java/com/example/falcon_strike_app/GamePanel.java:278-281 | `remove` keeps every other element |
| Lists.WithoutDistinct | app/src/main/java/com/example/falcon_strike_app/GamePanel.java:278-281 | on a list without repetitions, `remove` keeps it so and its members are exactly the old ones except the removed one |
| Lists.DistinctCount | app/src/main/java/com/example/falcon_strike_app/GamePanel.java:278-281 | each element of a list without repetitions occurs once at most |
| Lists.WithoutWithin | app/src/main/java/com/example/falcon_strike_app/GamePanel.java:278-281 | `remove` brings in no new element |
| Lists.WithoutAfter | app/src/main/java/com/example/falcon_strike_app/GamePanel.java:278-281 | removing an element absent from the front of a list changes only the back |
| Lists.AppendDistinct | app/src/main/java/com/example/falcon_strike_app/GamePanel.java:255-256 | adding a new object keeps a list without repetitions |
| Lists.WithoutSnoc | app/src/main/java/com/example/falcon_strike_app/GamePanel.java:278-281 | removing an element from a list with a different one appended removes it from the front part |
| Sprites.FrameMillis | app/src/main/java/com/example/falcon_strike_app/AnimatedSprite.java:29 | `mFPS` is the whole number of milliseconds per frame, `1000 / framesPerSecond`, for a positive rate, and `Long.MAX_VALUE` for a rate of 0 |
| Sprites.FrameMillisRange | app/src/main/java/com/example/falcon_strike_app/AnimatedSprite.java:29 | the millisecond quotient of a non-zero rate lies within plus or minus 1000 |
| Sprites.TruncQuotient | app/src/main/java/com/example/falcon_strike_app/AnimatedSprite.java:29 | truncating `1000.0 / f` gives the integer quotient `1000 / f` |
| Sprites.BuildFrames | app/src/main/java/com/example/falcon_strike_app/AnimatedSprite.java:32-42 | the constructor builds exactly `numFrames` rectangles, frame `i` being `[i*w, 0, (i+1)*w, h]` with `w = width / numFrames` |
| Sprites.FrameTableLayout | app/src/main/java/com/example/falcon_strike_app/AnimatedSprite.java:35-42 | the frame slices follow each other without gap or overlap and lie within the bitmap |
| Sprites.AdvanceAdditive | app/src/main/java/com/example/falcon_strike_app/Sprite.java:35-38 | with unchanged speed, two moves equal one move by the summed time |
| Sprites.AnimatedSprite.constructor | app/src/main/java/com/example/falcon_strike_app/AnimatedSprite.java:26-43 | a new sprite sits at the origin, still, unscaled, not draggable, on frame 0, visible, with its frame table and frame time |
| Sprites.AnimatedSprite.BoundsShape | app/src/main/java/com/example/falcon_strike_app/AnimatedSprite.java:66-88 | the frame box is centred on the position and is one frame's width (`width / numFrames`) and the bitmap's height, times the scale |
| Sprites.AnimatedSprite.OneFrameBounds | app/src/main/java/com/example/falcon_strike_app/Sprite.java:67-89 | `Sprite.getBounds` (whole bitmap) and `AnimatedSprite.getBounds` (one frame) agree exactly for a one-frame sprite |
| Sprites.AnimatedSprite.Move | app/src/main/java/com/example/falcon_strike_app/Sprite.java:35-38 | `move` advances each coordinate by its speed times the elapsed time |
| Sprites.AnimatedSprite.HandleBounce | app/src/main/java/com/example/falcon_strike_app/Sprite.java:41-49 | a speed component only keeps or flips its sign; it flips exactly when the centre is past half a box from that axis's limits; a sprite inside the bounds keeps both speeds |
| Sprites.AnimatedSprite.SetDraggable | app/src/main/java/com/example/falcon_strike_app/Sprite.java:100-102 | the draggable flag becomes the argument |
| Sprites.AnimatedSprite.SetDragging | app/src/main/java/com/example/falcon_strike_app/Sprite.java:104-106 | the dragging flag becomes the argument |
| Sprites.AnimatedSprite.SetScale | app/src/main/java/com/example/falcon_strike_app/Sprite.java:137-139 | the scale becomes the argument |
| Sprites.AnimatedSprite.SetSpeed | app/src/main/java/com/example/falcon_strike_app/Sprite.java:142-145 | the speed becomes the argument |
| Sprites.AnimatedSprite.SetPosition | app/src/main/java/com/example/falcon_strike_app/Sprite.java:109-134 | each coordinate is the requested one clamped per axis by the box's width or height, so the box lies on the screen on every axis it fits on |
| Sprites.AnimatedSprite.HandleAnimation | app/src/main/java/com/example/falcon_strike_app/AnimatedSprite.java:49-55 | before the next frame is due nothing changes; otherwise the frame advances modulo `numFrames` and the next frame is due `mFPS` later; the frame index stays in range |
| Sprites.AnimatedSprite.DrawnFrame | app/src/main/java/com/example/falcon_strike_app/AnimatedSprite.java:58-64 | the newer `render` draws nothing exactly when the sprite is invisible, and otherwise the current frame's slice |
| Sprites.AnimatedSprite.LegacyDrawnFrame | app/src/main/java/com/example/falconstrikeapp/AnimatedSprite.java:55-58 | the older `render` always draws the current frame's slice |
| Sprites.CollideSymmetric | app/src/main/java/com/example/falcon_strike_app/Sprite.java:57-59 | `a.collideWith(b) == b.collideWith(a)` |
| Sprites.DragNeedsDraggable | app/src/main/java/com/example/falcon_strike_app/Sprite.java:62-64 | a sprite that is not draggable is never touched and never dragging |
| Collision.SpritesOf | app/src/main/java/com/example/falcon_strike_app/CollisionThread.java:37-41 | the sprites of a list of bodies are that list's sprites, position by position |
| Collision.BucketIndexNearZero | app/src/main/java/com/example/falcon_strike_app/CollisionThread.java:55-56 | because the `(int)` cast truncates toward zero, every coordinate strictly between `-g` and `g` lands in bucket 0 |
| Collision.QuotientBelowOne | app/src/main/java/com/example/falcon_strike_app/CollisionThread.java:55-56 | a coordinate strictly between `-g` and `g` divided by `g` lies strictly between -1 and 1 |
| Collision.EventOf | app/src/main/java/com/example/falcon_strike_app/CollisionThread.java:69-73 | the listener call for a hit names the hitter and the enemy, and is `onPlayerEnemyCollision` exactly when the hitter is the player (otherwise `onBulletEnemyCollision`) |
| Collision.InGridCount | app/src/main/java/com/example/falcon_strike_app/CollisionThread.java:57 | the number of sprites whose bucket is in the grid is at most the number of sprites |
| Collision.SnapshotCurrent | app/src/main/java/com/example/falcon_strike_app/CollisionThread.java:37-41 | the bodies read from the sprite list describe exactly that list's sprites, in order, as they are now |
| Collision.CellCurrent | app/src/main/java/com/example/falcon_strike_app/CollisionThread.java:58 | a bucket filled from current bodies holds only current bodies |
| Collision.SpritesOfSnoc | app/src/main/java/com/example/falcon_strike_app/CollisionThread.java:37-39 | appending a body appends its sprite |
| Collision.CellContentsSnoc | app/src/main/java/com/example/falcon_strike_app/CollisionThread.java:54-60 | adding one more sprite appends it to its own bucket and to no other |
| Collision.CellCount | app/src/main/java/com/example/falcon_strike_app/CollisionThread.java:54-60 | after a rebuild, a bucket holds each listed sprite as often as the list does when its centre's bucket is that one, and never otherwise |
| Collision.CellMember | app/src/main/java/com/example/falcon_strike_app/CollisionThread.java:54-60 | a bucket holds exactly the listed sprites whose centre falls in it |
| Collision.AtMostOneCell | app/src/main/java/com/example/falcon_strike_app/CollisionThread.java:36-39 | after a rebuild each sprite is in at most one bucket |
| Collision.ColumnTotalSnoc | app/src/main/java/com/example/falcon_strike_app/CollisionThread.java:54-60 | adding a sprite adds one entry to a column exactly when its bucket is in that column's range |
| Collision.GridTotalSnoc | app/src/main/java/com/example/falcon_strike_app/CollisionThread.java:54-60 | adding a sprite adds one entry to the grid exactly when its bucket is in range |
| Collision.GridTotalCount | app/src/main/java/com/example/falcon_strike_app/CollisionThread.java:36-39 | after a rebuild the total number of grid entries equals the number of sprites whose bucket is in range |
| Collision.EmptyTotal | app/src/main/java/com/example/falcon_strike_app/CollisionThread.java:46-52 | an empty grid holds no entries |
| Collision.EmptyColumn | app/src/main/java/com/example/falcon_strike_app/CollisionThread.java:46-52 | an empty column holds no entries |
| Collision.EventsAgainstSound | app/src/main/java/com/example/falcon_strike_app/CollisionThread.java:67-75 | every event against one bucket is a hit of the scanned sprite on a sprite of that bucket: a different sprite, overlapping, an enemy, hit by the player or a bullet |
| Collision.ScanColumnSound | app/src/main/java/com/example/falcon_strike_app/CollisionThread.java:66-76 | every event of the row loop is a hit on a listed sprite whose bucket is in that column and row range |
| Collision.ScanBlockSound | app/src/main/java/com/example/falcon_strike_app/CollisionThread.java:65-77 | every event of the block loops is a hit on a listed sprite whose bucket is in that block |
| Collision.EventsAgainstIdle | app/src/main/java/com/example/falcon_strike_app/CollisionThread.java:69-73 | a scanned sprite that is neither the player nor a bullet reports nothing against a bucket |
| Collision.ScanColumnIdle | app/src/main/java/com/example/falcon_strike_app/CollisionThread.java:66-76 | an empty row range, or a scanned sprite that is neither player nor bullet, reports nothing |
| Collision.ScanBlockIdle | app/src/main/java/com/example/falcon_strike_app/CollisionThread.java:65-77 | the same for the block loops |
| Collision.SpriteEventsSound | app/src/main/java/com/example/falcon_strike_app/CollisionThread.java:62-78 | `checkCollisionsForSprite` reports only hits of the scanned sprite (never on itself, only on enemies, only by the player or a bullet, each through its own listener method) on listed sprites in grid buckets at most one bucket away on each axis; an enemy or explosion reports nothing |
| Collision.CycleEventsSound | app/src/main/java/com/example/falcon_strike_app/CollisionThread.java:40-42 | every event of one cycle is a hit by a scanned sprite on a listed sprite |
| Collision.EventsAgainstCount | app/src/main/java/com/example/falcon_strike_app/CollisionThread.java:67-75 | one bucket yields the event for a given target as often as the bucket holds it when the scanned sprite hits it, and never otherwise |
| Collision.ScanColumnCount | app/src/main/java/com/example/falcon_strike_app/CollisionThread.java:66-76 | the row loop yields a target's event as often as the list holds it when it is hit and its bucket is in range, and never otherwise |
| Collision.ScanBlockCount | app/src/main/java/com/example/falcon_strike_app/CollisionThread.java:65-77 | the block loops yield a target's event as often as the list holds it when it is hit and its bucket is in the block, and never otherwise |
| Collision.SpriteEventsCount | app/src/main/java/com/example/falcon_strike_app/CollisionThread.java:62-78 | `checkCollisionsForSprite` reports a target as often as it is listed exactly when it is hit and its bucket is in the grid within one bucket of the scanned sprite's, and never otherwise |
| Collision.FarOffGridSilent | app/src/main/java/com/example/falcon_strike_app/CollisionThread.java:65-66 | the neighbourhood loops only visit indices of the grid, and visit none (so report nothing) when the sprite's own bucket is more than one bucket off the grid |
| Collision.PlayerHitsEnemyOnce | app/src/main/java/com/example/falcon_strike_app/CollisionThread.java:69-70 | when the player overlaps a listed enemy within one bucket, scanning from the player reports exactly one player-enemy event for it and scanning from the enemy reports nothing |
| Collision.CyclePlayerHitsEnemyOnce | app/src/main/java/com/example/falcon_strike_app/CollisionThread.java:40-42 | over a whole cycle, such a pair gives exactly one player-enemy event |
| Collision.NoEventsFrom | app/src/main/java/com/example/falcon_strike_app/CollisionThread.java:40-42 | sprites other than the player never report a player-enemy event for it |
| Collision.CycleEventsStep | app/src/main/java/com/example/falcon_strike_app/CollisionThread.java:40-42 | the events of the first k+1 scanned sprites are those of the first k followed by those of sprite k |
| Collision.CheckCell | app/src/main/java/com/example/falcon_strike_app/CollisionThread.java:67-75 | the innermost loop over one bucket yields exactly the hit events for that bucket, in bucket order |
| Collision.CollisionThread.constructor | app/src/main/java/com/example/falcon_strike_app/CollisionThread.java:19-31 | the grid has `screenWidth / gridSize + 1` columns and `screenHeight / gridSize + 1` rows, each bucket starts empty, and the thread is running |
| Collision.CollisionThread.ClearGrid | app/src/main/java/com/example/falcon_strike_app/CollisionThread.java:46-52 | after `clearGrid` every bucket is empty |
| Collision.CollisionThread.AddSpriteToGrid | app/src/main/java/com/example/falcon_strike_app/CollisionThread.java:54-60 | the sprite is appended to exactly its bucket `((int)(x/g), (int)(y/g))` when that is in range, and no other bucket changes |
| Collision.CollisionThread.Rebuild | app/src/main/java/com/example/falcon_strike_app/CollisionThread.java:36-39 | clearing and then adding every listed sprite leaves each bucket holding exactly the listed sprites of that bucket, in list order |
| Collision.CollisionThread.CheckColumn | app/src/main/java/com/example/falcon_strike_app/CollisionThread.java:66-76 | the row loop yields the events its specification function gives |
| Collision.CollisionThread.CheckBlock | app/src/main/java/com/example/falcon_strike_app/CollisionThread.java:65-77 | the column and row loops yield the events of the block scan |
| Collision.CollisionThread.CheckCollisionsForSprite | app/src/main/java/com/example/falcon_strike_app/CollisionThread.java:62-78 | the scan from one sprite yields the events of its clamped 3-by-3 neighbourhood, in loop order |
| Collision.CollisionThread.CheckAll | app/src/main/java/com/example/falcon_strike_app/CollisionThread.java:40-42 | the second loop yields the events of every sprite in list order |
| Collision.CollisionThread.RunCycle | app/src/main/java/com/example/falcon_strike_app/CollisionThread.java:34-43 | one iteration of `run` rebuilds the grid from the current sprites and reports the events of the whole cycle |
| Collision.CollisionThread.ShutDown | app/src/main/java/com/example/falcon_strike_app/CollisionThread.java:80-82 | after `shutDown` the thread is no longer running |
| Play.InvincibleWindow | app/src/main/java/com/example/falcon_strike_app/GamePanel.java:261 | within 3000 ms of the last hit the player cannot be hit again, and past that it can |
| Play.EnemyTypeRange | app/src/main/java/com/example/falcon_strike_app/GamePanel.java:235 | the type drawn, `(int) (r * level) + 1` for `r` in [0, 1), lies between 1 and the level |
| Play.SameColourTables | app/src/main/java/com/example/falconstrikeapp/GamePanel.java:274-291 | the older switch, with its explicit `case 1`, assigns every type the same colour (and so the same bitmap and speed) as the newer one |
| Play.ColoursByLevel | app/src/main/java/com/example/falcon_strike_app/GamePanel.java:235-252 | level 1 spawns only red enemies, blue needs level 2 or more and green level 3 or more |
| Play.EntersAtTop | app/src/main/java/com/example/falcon_strike_app/Sprite.java:125-126 | `setPosition(x, -h)` puts a box `h` high with its centre at `h / 2`, just inside the top edge |
| Play.ScrollStaysInStrip | app/src/main/java/com/example/falcon_strike_app/GamePanel.java:159-164 | an offset within the background's height, scrolled by at most that height, stays within it |
| Play.ScrollMoves | app/src/main/java/com/example/falcon_strike_app/GamePanel.java:159-164 | the offset moves by the step, less the background's height exactly once when it passes it |
| Play.PlaceAtTop | app/src/main/java/com/example/falcon_strike_app/GamePanel.java:303 | the enemy is put at `r` times the free view width and `-h`, clamped onto the display by its box |
| Play.EnemyStepRecycles | app/src/main/java/com/example/falcon_strike_app/GamePanel.java:299-306 | an enemy that falls below the view is put back on the display just inside the top edge; one still in the view has only moved by its speed |
| Play.TopPoseInside | app/src/main/java/com/example/falcon_strike_app/GamePanel.java:254 | a box that fits on the display, sent to the top, lies on it with its centre `h / 2` down |
| Play.EnemyStepAtRest | app/src/main/java/com/example/falcon_strike_app/GamePanel.java:299-306 | with no time passing an enemy in the view stays where it is |
| Play.UpdateEnemies | app/src/main/java/com/example/falcon_strike_app/GamePanel.java:299-306 | every enemy of the list takes its step (moved, and recycled to the top if below the view) with its own random draw; no enemy is removed |
| Play.StepEnemy | app/src/main/java/com/example/falcon_strike_app/GamePanel.java:300-305 | one turn of the enemy loop moves the enemy and recycles it if it fell below the view |
| Play.Survivors | app/src/main/java/com/example/falcon_strike_app/GamePanel.java:322-329 | no more bullets are kept than were considered (`SurvivorsWithin` says which) |
| Play.Fallen | app/src/main/java/com/example/falcon_strike_app/GamePanel.java:322-329 | no more bullets are removed than were considered (`SurvivorsWithin` says which) |
| Play.SurvivorsWithin | app/src/main/java/com/example/falcon_strike_app/GamePanel.java:322-329 | every bullet is either kept or removed, never both, and no other bullet turns up |
| Play.SurvivorsExact | app/src/main/java/com/example/falcon_strike_app/GamePanel.java:325 | a bullet is kept exactly when its height is on or below the top edge |
| Play.FallenExact | app/src/main/java/com/example/falcon_strike_app/GamePanel.java:325-328 | a bullet is removed exactly when its height is above the top edge |
| Play.WithoutAllDistinct | app/src/main/java/com/example/falcon_strike_app/GamePanel.java:326-327 | removing several elements from a list without repetitions removes exactly those and keeps it free of repetitions |
| Play.WithoutFront | app/src/main/java/com/example/falcon_strike_app/GamePanel.java:326 | removing a bullet from the live list that has it right after the ones already handled removes it there |
| Play.NotBefore | app/src/main/java/com/example/falcon_strike_app/GamePanel.java:322 | in a list without repetitions no element occurs before its own position |
| Play.WithoutAllSnoc | app/src/main/java/com/example/falcon_strike_app/GamePanel.java:327 | removing one more element after several is one more `remove` |
| Play.SurvivorsPrefix | app/src/main/java/com/example/falcon_strike_app/GamePanel.java:322-329 | which bullets are kept depends only on their own heights |
| Play.KeptStep | app/src/main/java/com/example/falcon_strike_app/GamePanel.java:323-328 | one more bullet of the snapshot leaves the bullet list exactly when it is above the top edge |
| Play.BulletListStep | app/src/main/java/com/example/falcon_strike_app/GamePanel.java:323-328 | after one more bullet, both lists are again the survivors and the sprites without the fallen so far |
| Play.UpdateBullet | app/src/main/java/com/example/falcon_strike_app/GamePanel.java:323-328 | one turn of the bullet loop moves the next bullet and removes it from both lists exactly when it is above the top edge |
| Play.UpdateBullets | app/src/main/java/com/example/falcon_strike_app/GamePanel.java:320-330 | every bullet moves by its speed; the bullet list keeps exactly the bullets on or below the top edge and the sprite list loses exactly the others |
| Play.HandledAll | app/src/main/java/com/example/falcon_strike_app/GamePanel.java:322-329 | once the loop has seen every bullet, the lists are the survivors and the sprites without the fallen, over the present heights |
| Play.FirstTouched | app/src/main/java/com/example/falcon_strike_app/GamePanel.java:206-212 | the sprite chosen is the first draggable one under the touch point: it is touched and none before it is |
| Play.SubAppend | app/src/main/java/com/example/falcon_strike_app/GamePanel.java:255-256 | adding a sprite to both lists, or to the sprite list only, keeps every enemy and bullet in the sprite list |
| Play.SubWithout | app/src/main/java/com/example/falcon_strike_app/GamePanel.java:269-270 | removing one sprite from both lists keeps every enemy and bullet in the sprite list |
| Play.SubWithoutOther | app/src/main/java/com/example/falcon_strike_app/GamePanel.java:293 | removing from the sprite list one that the other list lacks keeps the other in it |
| Play.KindsWithout | app/src/main/java/com/example/falcon_strike_app/GamePanel.java:269 | a list of sprites of one type stays so after a removal |
| Play.OtherKind | app/src/main/java/com/example/falcon_strike_app/GamePanel.java:293 | a sprite of another type is not in a list of one type |
| Play.SurvivorsAbove | app/src/main/java/com/example/falcon_strike_app/GamePanel.java:325 | every bullet kept is one of those seen, on or below the top edge |
| Play.BulletsOnScreen | app/src/main/java/com/example/falcon_strike_app/GamePanel.java:320-330 | after `updateBullets` every bullet left is on or below the top edge |
| Play.SurvivorsDistinct | app/src/main/java/com/example/falcon_strike_app/GamePanel.java:322-329 | the bullets kept have no repetitions either |
| Play.SurvivorsKind | app/src/main/java/com/example/falcon_strike_app/GamePanel.java:322-329 | the bullets kept and removed are all bullets |
| Play.AddSpriteOk | app/src/main/java/com/example/falcon_strike_app/GamePanel.java:288 | adding a new explosion or the player to the sprite list keeps the lists in step |
| Play.AddEnemyOk | app/src/main/java/com/example/falcon_strike_app/GamePanel.java:255-256 | adding a new enemy to both lists keeps the lists in step |
| Play.AddBulletOk | app/src/main/java/com/example/falcon_strike_app/GamePanel.java:314-315 | adding a new bullet to both lists keeps the lists in step |
| Play.RemoveSpriteOk | app/src/main/java/com/example/falcon_strike_app/GamePanel.java:293 | removing an explosion from the sprite list keeps the lists in step and leaves it in none |
| Play.RemoveEnemyOk | app/src/main/java/com/example/falcon_strike_app/GamePanel.java:280-281 | removing an enemy from both lists keeps the lists in step and leaves it in neither |
| Play.RemoveBulletOk | app/src/main/java/com/example/falcon_strike_app/GamePanel.java:278-279 | removing a bullet from both lists keeps the lists in step and leaves it in neither |
| Play.EnemyHitOk | app/src/main/java/com/example/falcon_strike_app/GamePanel.java:263-270 | adding the explosion and then removing the enemy from both lists keeps them in step, the enemy in neither, and the explosion last in the sprite list |
| Play.BulletsLeaveTogether | app/src/main/java/com/example/falcon_strike_app/GamePanel.java:326-327 | `updateBullets` keeps every enemy and bullet in the sprite list, and a bullet stays in the bullet list exactly when it stays in the sprite list, exactly when it is on or below the top edge |
| Play.BulletsKeptExactly | app/src/main/java/com/example/falcon_strike_app/GamePanel.java:320-330 | after `updateBullets`, a sprite is in the bullet list exactly when it was a bullet on or below the top edge, and in the sprite list exactly when it was a sprite that is not a bullet above the top edge |
| Panel.ProgressStep | app/src/main/java/com/example/falcon_strike_app/GamePanel.java:146-149 | a call raises the level by at most one, exactly when the points reach 100 per level above the first; the threshold then grows by exactly 100 and stays the points of the level reached |
| Panel.FirstUpdateRaisesLevel | app/src/main/java/com/example/falcon_strike_app/GamePanel.java:41 | the threshold starts at 0, so the first `update` raises level 1 to 2 whatever the score |
| Panel.WinNeedsPoints | app/src/main/java/com/example/falcon_strike_app/GamePanel.java:150-152 | a level above 4, which wins, needs at least 300 points |
| Panel.GamePanel.WonWithPoints | app/src/main/java/com/example/falcon_strike_app/GamePanel.java:150-152 | a game that is won has at least 300 points |
| Panel.GamePanel.constructor | app/src/main/java/com/example/falcon_strike_app/GamePanel.java:88-119 | a new panel is on level 1 with threshold 0, three hit points, no points, empty lists, no held sprite, and a new unplaced player |
| Panel.GamePanel.Start | app/src/main/java/com/example/falcon_strike_app/GamePanel.java:121-131 | `start()` sets the background speed from the density, centres, scales and enables dragging of the player, adds it to the sprites, and makes a collision thread over the view with 100-unit cells; the lists stay in step exactly when the player was not yet a sprite, so a second `start()` (the activity calls it on every surface creation) breaks the invariant |
| Panel.GamePanel.PlacePlayer | app/src/main/java/com/example/falcon_strike_app/GamePanel.java:124-126 | the player is put at the view's centre (integer halves, clamped with its old scale), then scaled to half the density and made draggable |
| Panel.GamePanel.AddPlayer | app/src/main/java/com/example/falcon_strike_app/GamePanel.java:127 | the player is appended to the sprite list, and the lists stay in step exactly when it was not there yet |
| Panel.GamePanel.Update | app/src/main/java/com/example/falcon_strike_app/GamePanel.java:133-157 | once over or won the step is 0, the player is let go, the collision thread stops and nothing fires, while a running update leaves the player's dragging flag and the thread's running flag as they were; then an enemy in the view and every bullet stay where they are, but an enemy below the view is still sent to the top and a bullet above the top edge is still removed; the level advances by the ladder, a level above 4 wins, the background scrolls, at most one bullet (`fired`) is fired when due, from a player's height above the player; every enemy takes its step and every earlier and fired bullet moves; a sprite is then in the bullet list exactly when it was an earlier or fired bullet and is on or below the top edge, and in the sprite list exactly when it was a sprite or fired and is not a bullet above the top edge; the lists stay in step |
| Panel.GamePanel.BeginUpdate | app/src/main/java/com/example/falcon_strike_app/GamePanel.java:134-154 | the part of `update` before the sprites move: halting (only when over or won; otherwise the player's dragging flag and the thread's running flag are kept), level, background, and the firing, which appends the bullet `fired` to both lists, or nothing |
| Panel.GamePanel.MoveSprites | app/src/main/java/com/example/falcon_strike_app/GamePanel.java:155-156 | the enemies take their steps and the bullets move; a sprite stays in the bullet list exactly when it was a bullet on or below the top edge, and in the sprite list exactly when it was a sprite and not a bullet above the top edge |
| Panel.GamePanel.MoveAfterFiring | app/src/main/java/com/example/falcon_strike_app/GamePanel.java:155-156 | the same two calls told apart by the earlier bullets and the bullets just fired: each of both groups moves, and the lists keep exactly the sprites that are not bullets above the top edge |
| Panel.GamePanel.HaltPlay | app/src/main/java/com/example/falcon_strike_app/GamePanel.java:134-138 | the over-or-won branch lets go of the player and stops the collision thread |
| Panel.GamePanel.AdvanceLevel | app/src/main/java/com/example/falcon_strike_app/GamePanel.java:146-152 | the level check follows the ladder and a level above 4 wins |
| Panel.GamePanel.MoveEnemies | app/src/main/java/com/example/falcon_strike_app/GamePanel.java:299-306 | every enemy takes its step; no bullet moves |
| Panel.GamePanel.MoveBullets | app/src/main/java/com/example/falcon_strike_app/GamePanel.java:320-330 | every bullet moves; the bullet list becomes the bullets on or below the top edge and the sprite list loses the others, both in their order (`Survivors`, `WithoutAll` of `Fallen`); a sprite is in each list afterwards exactly when it was there and is not a bullet above the top edge |
| Panel.GamePanel.KeepBullets | app/src/main/java/com/example/falcon_strike_app/GamePanel.java:326-327 | the lists left by the bullet loop keep exactly the bullets on or below the top edge and every sprite that is not a bullet, in step |
| Panel.GamePanel.UpdateBackground | app/src/main/java/com/example/falcon_strike_app/GamePanel.java:159-164 | the offset scrolls by speed times time through the water bitmap's height |
| Panel.GamePanel.NewBullet | app/src/main/java/com/example/falcon_strike_app/GamePanel.java:311-313 | the new bullet starts a player's height above the player, clamped to the display (`NextMuzzle`), and rises at 300 units per unit of density |
| Panel.GamePanel.FireBullets | app/src/main/java/com/example/falcon_strike_app/GamePanel.java:308-317 | exactly one bullet is fired, into both lists, with the time recorded, when more than 500 ms have passed and the player is dragging; otherwise nothing changes |
| Panel.GamePanel.NewEnemy | app/src/main/java/com/example/falcon_strike_app/GamePanel.java:233-254 | the new enemy's bitmap and speed follow its drawn type (2 blue at 150, 3 green at 200, else red at 100, times density and level), and it starts at the top |
| Panel.GamePanel.SpawnEnemy | app/src/main/java/com/example/falcon_strike_app/GamePanel.java:232-257 | `spawnEnemy` adds that new enemy to both lists |
| Panel.GamePanel.ActivateEnemyTask | app/src/main/java/com/example/falcon_strike_app/GamePanel.java:77-86 | once over or won nothing happens and no rerun is asked for; otherwise an enemy is spawned exactly when the game has started and fewer than 10 are out, with the type the draw picks for the level, its bitmap and speed, at the top of the screen at the column the second draw picks; the next run is `2000 / level` ms later |
| Panel.GamePanel.NewExplosion | app/src/main/java/com/example/falcon_strike_app/GamePanel.java:285-287 | a still explosion is made at the given sprite's position, clamped onto the display |
| Panel.GamePanel.SpawnExplosion | app/src/main/java/com/example/falcon_strike_app/GamePanel.java:284-288 | that explosion joins the sprite list |
| Panel.GamePanel.RemoveExplosion | app/src/main/java/com/example/falcon_strike_app/GamePanel.java:290-295 | the delayed task removes the explosion from the sprites |
| Panel.GamePanel.OnPlayerEnemyCollision | app/src/main/java/com/example/falcon_strike_app/GamePanel.java:260-272 | within 3000 ms of the last hit nothing changes; otherwise an explosion appears at the player's position, the player loses exactly one hit point, the time is recorded, the game is over exactly when no hit points are left, and the enemy leaves both lists |
| Panel.GamePanel.LoseHitPoint | app/src/main/java/com/example/falcon_strike_app/GamePanel.java:264-268 | one hit point less, the time recorded, and game over exactly when none are left |
| Panel.GamePanel.ExplodeEnemy | app/src/main/java/com/example/falcon_strike_app/GamePanel.java:263-270 | the explosion joins the sprites and the enemy leaves both lists |
| Panel.GamePanel.OnBulletEnemyCollision | app/src/main/java/com/example/falcon_strike_app/GamePanel.java:275-282 | an explosion appears at the enemy, the score rises by exactly 10, and bullet and enemy leave their own lists and the sprite list |
| Panel.GamePanel.AddHitScore | app/src/main/java/com/example/falcon_strike_app/GamePanel.java:277 | 10 more points, keeping the level bounded by the points |
| Panel.GamePanel.RemoveBullet | app/src/main/java/com/example/falcon_strike_app/GamePanel.java:278-279 | the bullet leaves both lists |
| Panel.GamePanel.OnTouchEvent | app/src/main/java/com/example/falcon_strike_app/GamePanel.java:203-230 | a press picks and starts dragging the first draggable sprite under it, and leaves every other sprite's dragging flag alone, the one held before included; a move while holding one starts the game and moves it to the touch point clamped to the display; a release stops dragging the held sprite, lets it go and leaves every other sprite's dragging flag alone; the event is always reported handled |
| LegacyPanel.LevelSwitchStep | app/src/main/java/com/example/falconstrikeapp/GamePanel.java:111-120 | the level changes only at exactly 100 or 200 points and the win flag only at exactly 300; any other score leaves both, and the level stays backed by the points |
| LegacyPanel.ScoreJumpKeepsLevel | app/src/main/java/com/example/falconstrikeapp/GamePanel.java:111-120 | a score that jumps past 100 between updates (110) leaves the game on level 1 |
| LegacyPanel.MorePointsKeepLevel | app/src/main/java/com/example/falconstrikeapp/GamePanel.java:319 | more points never undo what the level and win flag say about the score |
| LegacyPanel.LevelBackground | app/src/main/java/com/example/falconstrikeapp/GamePanel.java:205-216 | levels 1, 2 and 3 choose a background bitmap; any other level keeps the one chosen before |
| LegacyPanel.BackgroundStepMoves | app/src/main/java/com/example/falconstrikeapp/GamePanel.java:127-134 | without a bitmap the offset stays; with one it moves by the step, less the bitmap's height once when it passes it |
| LegacyPanel.GamePanel.WonWithPoints | app/src/main/java/com/example/falconstrikeapp/GamePanel.java:118-119 | a game that is won has at least 300 points |
| LegacyPanel.GamePanel.constructor | app/src/main/java/com/example/falconstrikeapp/GamePanel.java:71-90 | a new panel is on level 1 with three hit points, no points, no background, empty lists, and a new unplaced player |
| LegacyPanel.GamePanel.Start | app/src/main/java/com/example/falconstrikeapp/GamePanel.java:92-104 | `start()` sets the background speed from the density, puts the player at the view's size less its box times the density, scales it, enables dragging, adds it to the sprites, and makes a collision thread over the view with 100-unit cells; the lists stay in step exactly when the player was not yet a sprite, so a second `start()` breaks the invariant |
| LegacyPanel.GamePanel.PlacePlayer | app/src/main/java/com/example/falconstrikeapp/GamePanel.java:95-99 | the centre is the view's size less the player's box times the density, and the player is put there, clamped, then scaled and made draggable |
| LegacyPanel.GamePanel.AddPlayer | app/src/main/java/com/example/falconstrikeapp/GamePanel.java:100 | the player is appended to the sprite list, and the lists stay in step exactly when it was not there yet |
| LegacyPanel.GamePanel.Update | app/src/main/java/com/example/falconstrikeapp/GamePanel.java:106-125 | when over or won, finish is posted and score, level, HP, lists and positions are unchanged; otherwise the exact-score switch runs, the background scrolls if it has a bitmap, at most one bullet (`fired`) is fired when due, from a player's height above the player; every enemy takes its step and every earlier and fired bullet moves; a sprite is then in the bullet list exactly when it was an earlier or fired bullet and is on or below the top edge, and in the sprite list exactly when it was a sprite or fired and is not a bullet above the top edge |
| LegacyPanel.GamePanel.BeginUpdate | app/src/main/java/com/example/falconstrikeapp/GamePanel.java:111-122 | the level switch, the background step and the firing of a running `update`, which appends the bullet `fired` to both lists, or nothing |
| LegacyPanel.GamePanel.SwitchLevel | app/src/main/java/com/example/falconstrikeapp/GamePanel.java:111-120 | the `switch (mScore)` gives the level and win flag of `LevelSwitch` and keeps them backed by the points |
| LegacyPanel.GamePanel.UpdateBackground | app/src/main/java/com/example/falconstrikeapp/GamePanel.java:127-134 | the offset advances only when a background bitmap exists, and wraps by its height |
| LegacyPanel.GamePanel.ChooseBackground | app/src/main/java/com/example/falconstrikeapp/GamePanel.java:205-216 | `render` chooses the level's background, so one exists from the first render on every level the game reaches |
| LegacyPanel.GamePanel.NewBullet | app/src/main/java/com/example/falconstrikeapp/GamePanel.java:139-141 | the new bullet starts a player's height above the player, clamped to the display (`NextMuzzle`), and rises at 300 units per unit of density |
| LegacyPanel.GamePanel.FireBullets | app/src/main/java/com/example/falconstrikeapp/GamePanel.java:136-145 | exactly one bullet is fired, into both lists, with the time recorded, when more than 1000 ms have passed and the player is dragging; otherwise nothing changes |
| LegacyPanel.GamePanel.MoveSprites | app/src/main/java/com/example/falconstrikeapp/GamePanel.java:123-124 | the enemies take their steps and the bullets move; a sprite stays in the bullet list exactly when it was a bullet on or below the top edge, and in the sprite list exactly when it was a sprite and not a bullet above the top edge |
| LegacyPanel.GamePanel.MoveAfterFiring | app/src/main/java/com/example/falconstrikeapp/GamePanel.java:123-124 | the same two calls told apart by the earlier bullets and the bullets just fired: each of both groups moves, and the lists keep exactly the sprites that are not bullets above the top edge |
| LegacyPanel.GamePanel.MoveEnemies | app/src/main/java/com/example/falconstrikeapp/GamePanel.java:147-154 | every enemy takes its step; no bullet moves |
| LegacyPanel.GamePanel.MoveBullets | app/src/main/java/com/example/falconstrikeapp/GamePanel.java:156-166 | every bullet moves; the bullet list becomes the bullets on or below the top edge and the sprite list loses the others, both in their order (`Survivors`, `WithoutAll` of `Fallen`); a sprite is in each list afterwards exactly when it was there and is not a bullet above the top edge |
| LegacyPanel.GamePanel.KeepBullets | app/src/main/java/com/example/falconstrikeapp/GamePanel.java:162-163 | the lists left by the bullet loop keep exactly the bullets on or below the top edge and every sprite that is not a bullet, in step |
| LegacyPanel.GamePanel.NewEnemy | app/src/main/java/com/example/falconstrikeapp/GamePanel.java:271-293 | the new enemy's bitmap and speed follow its drawn type (1 red at 100, 2 blue at 150, 3 green at 200, other red at 100, times density and level), and it starts at the top |
| LegacyPanel.GamePanel.SpawnEnemy | app/src/main/java/com/example/falconstrikeapp/GamePanel.java:270-296 | `spawnEnemy` adds that new enemy to both lists |
| LegacyPanel.GamePanel.ActivateEnemyTask | app/src/main/java/com/example/falconstrikeapp/GamePanel.java:59-69 | once over or won nothing happens and no rerun is asked for; otherwise an enemy is spawned exactly when the game has started and fewer than 10 are out, with the type the draw picks for the level, its bitmap and speed, at the top of the screen at the column the second draw picks; the next run is 2000 ms later |
| LegacyPanel.GamePanel.NewExplosion | app/src/main/java/com/example/falconstrikeapp/GamePanel.java:328-330 | a still explosion is made at the given sprite's position, clamped onto the display |
| LegacyPanel.GamePanel.SpawnExplosion | app/src/main/java/com/example/falconstrikeapp/GamePanel.java:327-331 | that explosion joins the sprite list |
| LegacyPanel.GamePanel.RemoveExplosion | app/src/main/java/com/example/falconstrikeapp/GamePanel.java:333-338 | the delayed task removes the explosion from the sprites |
| LegacyPanel.GamePanel.OnPlayerEnemyCollision | app/src/main/java/com/example/falconstrikeapp/GamePanel.java:299-313 | within 3000 ms of the last hit nothing changes; otherwise an explosion appears at the player's position, the player loses exactly one hit point, the time is recorded, the game is over exactly when no hit points are left, and the enemy leaves both lists |
| LegacyPanel.GamePanel.LoseHitPoint | app/src/main/java/com/example/falconstrikeapp/GamePanel.java:305-309 | one hit point less, the time recorded, and game over exactly when none are left |
| LegacyPanel.GamePanel.ExplodeEnemy | app/src/main/java/com/example/falconstrikeapp/GamePanel.java:304-311 | the explosion joins the sprites and the enemy leaves both lists |
| LegacyPanel.GamePanel.OnBulletEnemyCollision | app/src/main/java/com/example/falconstrikeapp/GamePanel.java:316-324 | an explosion appears at the enemy, the score rises by exactly 10, and bullet and enemy leave their own lists and the sprite list |
| LegacyPanel.GamePanel.AddHitScore | app/src/main/java/com/example/falconstrikeapp/GamePanel.java:319 | 10 more points, keeping the level and win flag backed by the points |
| LegacyPanel.GamePanel.RemoveBullet | app/src/main/java/com/example/falconstrikeapp/GamePanel.java:320-321 | the bullet leaves both lists |
| LegacyPanel.GamePanel.OnTouchEvent | app/src/main/java/com/example/falconstrikeapp/GamePanel.java:243-268 | only draggable sprites take part: a press starts dragging the first one under the point and stops; a move takes every one being dragged to the point, clamped, and starts the game if there was one; a release stops dragging all of them; the event is always reported handled |
| LegacyPanel.TouchDown | app/src/main/java/com/example/falconstrikeapp/GamePanel.java:248-253 | the first draggable sprite under the point starts being dragged and no other sprite changes |
| LegacyPanel.TouchMove | app/src/main/java/com/example/falconstrikeapp/GamePanel.java:254-261 | every sprite being dragged goes to the point clamped to the display, the others stay, and the game starts exactly when one was being dragged |
| LegacyPanel.DragTo | app/src/main/java/com/example/falconstrikeapp/GamePanel.java:255-260 | one sprite being dragged goes to the point clamped to the display; one that is not stays |
| LegacyPanel.TouchUp | app/src/main/java/com/example/falconstrikeapp/GamePanel.java:262-264 | every draggable sprite stops being dragged and the others keep their flag |
| FrameLoop.FrameInterval | app/src/main/java/com/example/falconstrikeapp/GameThread.java:38-46 | the interval is 0 on the first frame and never more than one second |
| FrameLoop.TargetFrameRate | app/src/main/java/com/example/falconstrikeapp/GameThread.java:11 | the render-skip bound is 16,666,666,000,000,000 ns (16,666,666 s, not a sixtieth of a second), and the `long` product does not overflow |
| FrameLoop.RenderAlmostAlwaysDue | app/src/main/java/com/example/falconstrikeapp/GameThread.java:51-55 | without clock overflow, the render is skipped exactly when the update took longer than the bound, so an update of a full second still renders |
| FrameLoop.FrameIntervalCases | app/src/main/java/com/example/falconstrikeapp/GameThread.java:39-45 | the first frame gives 0; later, a gap of more than one second gives 0, a gap of exactly one second is kept, and a negative gap is kept too |
| FrameLoop.GameThread.constructor | app/src/main/java/com/example/falconstrikeapp/GameThread.java:21-24 | a new thread has seen no frame yet |
| FrameLoop.GameThread.DoFrame | app/src/main/java/com/example/falconstrikeapp/GameThread.java:36-70 | the previous time becomes the timestamp; `update` is called exactly once, first, with the interval in seconds; `render` follows exactly when the frame is due and a canvas was locked |
| FrameLoop.GameThread.Shutdown | app/src/main/java/com/example/falconstrikeapp/GameThread.java:72-74 | `shutdown` quits the looper |
| Handler.ShiftRight32Bits | app/src/main/java/com/example/falcon_strike_app/GameHandler.java:27 | the arithmetic shift by 32 moves the upper half down and fills the upper half with the sign bit |
| Handler.IntCastBits | app/src/main/java/com/example/falcon_strike_app/GameHandler.java:27-28 | the `(int)` cast keeps the low half and fills the upper half with copies of bit 31 |
| Handler.IntCastIdempotent | app/src/main/java/com/example/falcon_strike_app/GameHandler.java:27-28 | casting an `int` to `int` again changes nothing |
| Handler.FrameMessage | app/src/main/java/com/example/falcon_strike_app/GameHandler.java:26-29 | `sendDoFrame` posts code 0 with two `int` arguments |
| Handler.ShutdownMessage | app/src/main/java/com/example/falconstrikeapp/GameHandler.java:32-34 | `sendShutdown` posts code 1, which is not the frame code, so `handleMessage` sends it to `shutdown` |
| Handler.TimestampRoundTrip | app/src/main/java/com/example/falcon_strike_app/GameHandler.java:47 | for every 64-bit timestamp, splitting it into the two `int` arguments and joining them again gives it back |
| Handler.GameHandler.constructor | app/src/main/java/com/example/falcon_strike_app/GameHandler.java:20-23 | a new handler holds the given game thread and has posted nothing |
| Handler.GameHandler.SendDoFrame | app/src/main/java/com/example/falconstrikeapp/GameHandler.java:26-29 | one frame message for the timestamp is posted after those before |
| Handler.GameHandler.SendShutdown | app/src/main/java/com/example/falconstrikeapp/GameHandler.java:32-34 | one shutdown message is posted after those before |
| Handler.GameHandler.HandleMessage | app/src/main/java/com/example/falcon_strike_app/GameHandler.java:38-56 | with no game thread nothing is dispatched; code 0 runs `doFrame` on the rebuilt timestamp, code 1 runs `shutdown`, and any other code is reported as an unknown message |
| Handler.FrameMessageDelivers | app/src/main/java/com/example/falconstrikeapp/GameHandler.java:47-48 | handling the message `sendDoFrame(t)` posts runs `doFrame` on `t` itself |

Lemmas that only serve other proofs have no row: `Lists.TwoIndices`, `Lists.SplitAt`, `Lists.AppendAssoc`, `Lists.AppendPresent`, `Sprites.TruncProducts`, `Sprites.ScaleLower`, `Sprites.ScaleUpper`, `Sprites.ProductAsReal`, `Sprites.DivUnique`, `Sprites.RealScale` and `Sprites.MulMono`. Neither do the functions `Play.Muzzle` and `GamePanel.NextMuzzle` of both panels, which name where a fired bullet starts. Nor do `Play.Heights` and `Play.Poses`, which read the bullets' heights and the sprites' positions for a snapshot, or `Panel.Held`, `Panel.Thread` and `Handler.Thread`, which turn a field that may be `null` into the list of objects a method may change.

## Left out

- Concurrency. The collision thread, the game thread, the UI thread and the `Handler` timers run at the same time over `CopyOnWriteArrayList`s. Here each step is one method call run to completion.
- `Collision.CollisionThread.RunCycle`: models one iteration of the `run` loop. It assumes that no other thread moves or removes a sprite while the cycle runs (`Current`), and that the listener's handlers run after the cycle, not inside it.
- Timers (`Handler.postDelayed`), modelled as follows:
  - the spawn task's rescheduling is its returned delay;
  - the explosion's delayed removal is the separate method `RemoveExplosion`;
  - the older `update` posting `finish` is its returned flag.
- Panel.GamePanel.Update: the newer `update` also removes the spawn task's callbacks (line 137) and posts `gameOver(mScore)` for 3000 ms later (lines 139-143). Both are timer effects and are not modelled.
- `startBlinking` is not modelled. The `isVisible` toggling runs on a timer, and the sprite's `visible` field is only read by `DrawnFrame`.
- Rendering is not modelled: `render`, the drawing loops of `drawBackgroundBitmap`, `drawMultilineText`, `Canvas` and `Paint`. The newer `drawBackgroundBitmap` assigns `mBackgroundBitmap` only for drawing, and nothing in the newer game logic reads that field, so it is not modelled. The older one's choice of bitmap is modelled (`ChooseBackground`), because the older `updateBackground` depends on it.
- Sound and bitmap decoding: `SoundPool` playback is dropped. Decoded bitmaps are given as their width and height (`Images`).
- Floating point: `float` and `double` values are reals, with no rounding. Float-to-integer casts truncate toward zero (`Trunc`). `intervalNanos / ONE_BILLION_FLOAT` is exact real division.
- Java.Trunc: does not model the saturation of `(int)` / `(long)` casts on values outside the integer range, nor NaN.
- Integer widths: score, level and hit points are unbounded integers. The `int` overflow of `mScore += 10` or `mLevel++` after about 2^31 steps is not modelled. `long` clock arithmetic does wrap (`WrapLong`).
- Clocks and randomness are parameters:
  - each step takes one `now`, even where the source reads `System.currentTimeMillis()` twice (for example `fireBullets`, lines 309-310);
  - `doFrame`'s `System.nanoTime()` is its `now` parameter;
  - `Math.random()` draws are parameters, and the lemmas that need them in [0, 1) say so.
- Panel.GamePanel.OnPlayerEnemyCollision: requires the second sprite to be an enemy. This is the only call the collision thread makes (`Collision.SpriteEventsSound`), and the enemy-list invariant relies on it. The same holds for `OnBulletEnemyCollision`, which also requires a bullet, and for the `LegacyPanel` copies.
- Panel.GamePanel.Start: requires that each view size divided by the 100-unit cell (truncated toward zero) is at least -1, so a size above -200. A smaller size gives the collision grid a negative dimension, and the array allocation throws. The same holds for `LegacyPanel.GamePanel.Start`.
- Panel.GamePanel.Start: a second `start()` is modelled only up to its end. It appends the player again, so the lists are no longer in step (`Valid()` is false), and no later step is modelled from that state, since every other method requires `Valid()`. The thread made by the earlier call is left running. The same holds for `LegacyPanel.GamePanel.Start`.
- Panel.GamePanel.Update: states which sprites each list keeps, not their order. The order is stated one level down, on `Panel.GamePanel.MoveBullets`. The same holds for `LegacyPanel.GamePanel.Update`, `MoveSprites` and `MoveAfterFiring` in both copies.
- Panel.GamePanel.Update: requires a collision thread once the game is over or won. Without one the source dereferences null at `collisionThread.shutDown()` (line 138).
- Collision.CollisionThread.constructor: requires a positive cell size and a grid size of at least 0 on each axis. Otherwise Java throws on the division or on the array allocation.
- Helper methods. Some source methods are split into several methods here, and those helpers have no source method of their own; they only keep each proof small. They are:
  - `PlacePlayer`, `AddPlayer`, `BeginUpdate`, `MoveSprites`, `MoveAfterFiring`, `HaltPlay`, `AdvanceLevel`, `SwitchLevel` and `KeepBullets`;
  - `NewBullet`, `NewEnemy`, `NewExplosion`, `LoseHitPoint`, `ExplodeEnemy`, `AddHitScore` and `RemoveBullet`;
  - `TouchDown`, `TouchMove`, `DragTo` and `TouchUp`;
  - `StepEnemy`, `UpdateBullet` and `PlaceAtTop`.

  Their composition gives the same final state as the source's statement order.
- `MainActivity`, `PageActivity` and the Activity lifecycle are not part of this model. Neither are Choreographer callbacks, `GameThread.run`, `waitUntilReady`, `getHandler` and the `Looper`. `Log` calls are dropped.
- `CollisionListener` is an interface without code. Its two callbacks are the `CollisionEvent` values that a scan returns.
- Handler.GameHandler.HandleMessage: the message queue is not modelled. A posted message is appended to `sent`, and handling takes the message as a parameter. The `RuntimeException` for an unknown code is the outcome `Unknown`. The `Message` arguments are Java `int`s, held as the 64-bit words they widen to.
- Handler.FrameMessageDelivers: states that `doFrame` receives the `long` whose bits the handler rebuilt. The split and the join themselves are proved over 64-bit words (`TimestampRoundTrip`).
- The newer `GameThread.java` is not part of this model. The newer handler is connected to the older `GameThread` (`FrameLoop`).
