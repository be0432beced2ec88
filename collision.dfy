/** The collision scan of the newer game (`CollisionThread`): a grid of buckets of
    side `gridSize` over the screen; every cycle clears it, drops each sprite into the
    bucket holding its centre, and for each sprite looks through the buckets around
    its own for overlapping boxes. The listener it reports to is modelled as the
    sequence of events it would receive, in order.

    The specification of a cycle works on `Body` values: what the scan reads of each
    sprite (its identity, type, centre and box). The thread's methods read the sprite
    objects themselves and are tied to those values by `Current`, which says that the
    sprites still are as the values describe; so a cycle is modelled as if no other
    thread moved a sprite while it ran. */
module Collision {
  import opened Java
  import opened Lists
  import opened Geometry
  import opened Sprites

  /** A call on the `CollisionListener`: `onPlayerEnemyCollision(hitter, enemy)` or
      `onBulletEnemyCollision(hitter, enemy)`. */
  datatype CollisionEvent =
    | PlayerEnemy(hitter: AnimatedSprite, enemy: AnimatedSprite)
    | BulletEnemy(hitter: AnimatedSprite, enemy: AnimatedSprite)

  /** What the scan reads of one sprite: the object, `getType()`, `getX()`, `getY()` and
      `getBounds()`. */
  datatype Body = Body(sprite: AnimatedSprite, kind: SpriteType, x: real, y: real, box: RectF)

  /** The body of a sprite as it is now. */
  function BodyOf(s: AnimatedSprite): Body
    reads s
  {
    Body(s, s.kind, s.x, s.y, s.Bounds())
  }

  /** The bodies of a list of sprites, in list order. */
  function Snapshot(sprites: seq<AnimatedSprite>): (r: seq<Body>)
    reads sprites
  {
    seq(|sprites|, k requires 0 <= k < |sprites| reads sprites => BodyOf(sprites[k]))
  }

  /** The sprites of a list of bodies, in order. */
  function SpritesOf(bodies: seq<Body>): (r: seq<AnimatedSprite>)
    ensures |r| == |bodies| && forall k :: 0 <= k < |r| ==> r[k] == bodies[k].sprite
  {
    if bodies == [] then [] else SpritesOf(bodies[..|bodies| - 1]) + [bodies[|bodies| - 1].sprite]
  }

  /** Every body still describes its sprite. */
  ghost predicate Current(bodies: seq<Body>)
    reads set b | b in bodies :: b.sprite
  {
    forall k :: 0 <= k < |bodies| ==> bodies[k] == BodyOf(bodies[k].sprite)
  }

  /** At most one body of the list describes the sprite of `o`, and then it is `o`. */
  predicate OnlyBody(bodies: seq<Body>, o: Body) {
    forall b :: b in bodies && b.sprite == o.sprite ==> b == o
  }

  function Max(a: int, b: int): int { if a < b then b else a }
  function Min(a: int, b: int): int { if a < b then a else b }

  /** The bucket of a sprite: each coordinate of its centre divided by the cell size,
      truncated toward zero, so a centre less than one cell left of or above 0 is in
      bucket 0. */
  function CellOf(b: Body, g: int): (int, int)
    requires g > 0
  {
    (BucketIndex(b.x, g), BucketIndex(b.y, g))
  }

  /** The bucket index of a coordinate `v` with cells `g` wide: the quotient, truncated
      toward zero as the integer cast does. */
  function BucketIndex(v: real, g: int): int
    requires g > 0
  {
    Trunc(v / g as real)
  }

  /** Since the cast truncates, every coordinate in `(-g, g)` falls in bucket 0, so the
      buckets on either side of 0 are twice as wide as the others. */
  lemma BucketIndexNearZero(v: real, g: int)
    requires g > 0 && -(g as real) < v < g as real
    ensures BucketIndex(v, g) == 0
  {
    QuotientBelowOne(v, g, v / g as real);
  }

  /** A coordinate strictly inside `(-g, g)`, divided by `g`, lies strictly inside `(-1, 1)`;
      `BucketIndexNearZero` rests on it. */
  lemma QuotientBelowOne(v: real, g: int, q: real)
    requires g > 0 && q == v / g as real
    ensures -(g as real) < v < g as real ==> -1.0 < q < 1.0
  {
    var gr := g as real;
    assert q * gr == v;
    if -gr < v < gr {
      if q >= 1.0 {
        RealScale(1.0, q, gr);
      } else if q <= -1.0 {
        RealScale(q, -1.0, gr);
      }
    }
  }

  /** What bucket `(i, j)` holds once the sprites of `bodies` have been dropped into an
      empty grid in order: those whose centre is in that bucket, in list order. */
  function CellContents(bodies: seq<Body>, g: int, i: int, j: int): seq<Body>
    requires g > 0
  {
    if bodies == [] then []
    else
      var last := bodies[|bodies| - 1];
      CellContents(bodies[..|bodies| - 1], g, i, j) + (if CellOf(last, g) == (i, j) then [last] else [])
  }

  /** Whether scanning from `a` reports `b`: another sprite with an overlapping box, where
      `a` is the player or a bullet and `b` an enemy. */
  predicate Hit(a: Body, b: Body) {
    a.sprite != b.sprite && Intersects(a.box, b.box) && b.kind == ENEMY && (a.kind == PLAYER || a.kind == BULLET)
  }

  /** The listener call a hit of `a` on `b` makes. */
  function EventOf(a: Body, b: Body): (e: CollisionEvent)
    ensures e.hitter == a.sprite && e.enemy == b.sprite
    ensures e.PlayerEnemy? <==> a.kind == PLAYER
  {
    if a.kind == PLAYER then PlayerEnemy(a.sprite, b.sprite) else BulletEnemy(a.sprite, b.sprite)
  }

  /** The innermost loop of `checkCollisionsForSprite`: the events for `a` against the
      sprites of one bucket, in bucket order. */
  function EventsAgainst(a: Body, others: seq<Body>): seq<CollisionEvent>
  {
    if others == [] then []
    else
      var o := others[|others| - 1];
      EventsAgainst(a, others[..|others| - 1]) + (if Hit(a, o) then [EventOf(a, o)] else [])
  }

  /** The `j` loop for column `i`: buckets `(i, jlo)` up to `(i, jhi - 1)`. */
  function ScanColumn(a: Body, bodies: seq<Body>, g: int, i: int, jlo: int, jhi: int): seq<CollisionEvent>
    requires g > 0
    decreases jhi - jlo
  {
    if jhi <= jlo then []
    else ScanColumn(a, bodies, g, i, jlo, jhi - 1) + EventsAgainst(a, CellContents(bodies, g, i, jhi - 1))
  }

  /** The `i` and `j` loops: columns `ilo` up to `ihi - 1`, each over rows `jlo` to `jhi - 1`. */
  function ScanBlock(a: Body, bodies: seq<Body>, g: int, ilo: int, ihi: int, jlo: int, jhi: int): seq<CollisionEvent>
    requires g > 0
    decreases ihi - ilo
  {
    if ihi <= ilo then []
    else ScanBlock(a, bodies, g, ilo, ihi - 1, jlo, jhi) + ScanColumn(a, bodies, g, ihi - 1, jlo, jhi)
  }

  /** The columns (or rows) the scan from a sprite in column `c` visits, of `n` in all,
      are `max(0, c - 1)` to `min(n - 1, c + 1)`: from `NearLo(c)` up to but not
      including `NearHi(c, n)`. */
  function NearLo(c: int): int { Max(0, c - 1) }
  function NearHi(c: int, n: int): int { Min(n - 1, c + 1) + 1 }

  /** `checkCollisionsForSprite` from `a` on a grid of `cols` by `rows` buckets filled from
      `bodies`: the events of the clamped 3-by-3 block of buckets around `a`. */
  function SpriteEvents(a: Body, bodies: seq<Body>, g: int, cols: int, rows: int): seq<CollisionEvent>
    requires g > 0
  {
    var c := CellOf(a, g);
    ScanBlock(a, bodies, g, NearLo(c.0), NearHi(c.0, cols), NearLo(c.1), NearHi(c.1, rows))
  }

  /** The second `for` loop of one `run` cycle: the events of every body of `scan` in turn. */
  function CycleEvents(scan: seq<Body>, bodies: seq<Body>, g: int, cols: int, rows: int): seq<CollisionEvent>
    requires g > 0
  {
    if scan == [] then []
    else CycleEvents(scan[..|scan| - 1], bodies, g, cols, rows) + SpriteEvents(scan[|scan| - 1], bodies, g, cols, rows)
  }

  /** Number of bodies whose bucket lies in a `cols` by `rows` grid; `GridTotalCount`
      proves the rebuilt grid holds exactly this many entries. */
  function InGridCount(bodies: seq<Body>, g: int, cols: int, rows: int): (n: nat)
    requires g > 0
    ensures n <= |bodies|
  {
    if bodies == [] then 0
    else
      var c := CellOf(bodies[|bodies| - 1], g);
      InGridCount(bodies[..|bodies| - 1], g, cols, rows) + (if 0 <= c.0 < cols && 0 <= c.1 < rows then 1 else 0)
  }

  /** The entries in buckets `(i, 0)` to `(i, rows - 1)`. */
  function ColumnTotal(bodies: seq<Body>, g: int, i: int, rows: int): nat
    requires g > 0
  {
    if rows <= 0 then 0 else ColumnTotal(bodies, g, i, rows - 1) + |CellContents(bodies, g, i, rows - 1)|
  }

  /** The entries in all buckets of a `cols` by `rows` grid. */
  function GridTotal(bodies: seq<Body>, g: int, cols: int, rows: int): nat
    requires g > 0
  {
    if cols <= 0 then 0 else GridTotal(bodies, g, cols - 1, rows) + ColumnTotal(bodies, g, cols - 1, rows)
  }

  // ---------------------------------------------------------------------------
  // Snapshots

  /** A list's snapshot describes the list's sprites, in order, as they are. */
  lemma SnapshotCurrent(sprites: seq<AnimatedSprite>)
    ensures SpritesOf(Snapshot(sprites)) == sprites
    ensures Current(Snapshot(sprites))
  {
    var r := Snapshot(sprites);
    forall b | b in r ensures b == BodyOf(b.sprite) {
      var k :| 0 <= k < |r| && r[k] == b;
      assert b == BodyOf(sprites[k]);
    }
  }

  /** Every bucket of a current list is current. */
  lemma CellCurrent(bodies: seq<Body>, g: int, i: int, j: int)
    requires g > 0 && Current(bodies)
    ensures Current(CellContents(bodies, g, i, j))
  {
    forall b | b in CellContents(bodies, g, i, j) ensures b == BodyOf(b.sprite) {
      CellMember(bodies, g, i, j, b);
    }
  }

  lemma SpritesOfSnoc(bodies: seq<Body>, b: Body)
    ensures SpritesOf(bodies + [b]) == SpritesOf(bodies) + [b.sprite]
  {
    assert (bodies + [b])[..|bodies|] == bodies;
  }

  // ---------------------------------------------------------------------------
  // Properties of one rebuild of the grid

  /** Dropping one more sprite in adds it to the end of its own bucket and changes no other. */
  lemma CellContentsSnoc(bodies: seq<Body>, o: Body, g: int, i: int, j: int)
    requires g > 0
    ensures CellContents(bodies + [o], g, i, j) ==
      CellContents(bodies, g, i, j) + (if CellOf(o, g) == (i, j) then [o] else [])
  {
    assert (bodies + [o])[..|bodies|] == bodies;
  }

  /** A bucket holds each listed sprite as often as the list does if its centre is there,
      and otherwise not at all. */
  lemma {:induction false} CellCount(bodies: seq<Body>, g: int, i: int, j: int, o: Body)
    requires g > 0
    ensures multiset(CellContents(bodies, g, i, j))[o] ==
      if CellOf(o, g) == (i, j) then multiset(bodies)[o] else 0
  {
    if bodies != [] {
      var init := bodies[..|bodies| - 1];
      var last := bodies[|bodies| - 1];
      assert bodies == init + [last];
      CellCount(init, g, i, j, o);
      CellContentsSnoc(init, last, g, i, j);
    }
  }

  /** So a bucket holds exactly the listed sprites whose centre is in it. */
  lemma CellMember(bodies: seq<Body>, g: int, i: int, j: int, o: Body)
    requires g > 0
    ensures o in CellContents(bodies, g, i, j) <==> o in bodies && CellOf(o, g) == (i, j)
  {
    CellCount(bodies, g, i, j, o);
  }

  /** And each sprite is in at most one bucket. */
  lemma AtMostOneCell(bodies: seq<Body>, g: int, o: Body, i1: int, j1: int, i2: int, j2: int)
    requires g > 0 && o in CellContents(bodies, g, i1, j1) && o in CellContents(bodies, g, i2, j2)
    ensures i1 == i2 && j1 == j2
  {
    CellMember(bodies, g, i1, j1, o);
    CellMember(bodies, g, i2, j2, o);
  }

  lemma {:induction false} ColumnTotalSnoc(bodies: seq<Body>, o: Body, g: int, i: int, rows: int)
    requires g > 0
    ensures ColumnTotal(bodies + [o], g, i, rows) ==
      ColumnTotal(bodies, g, i, rows) + (if CellOf(o, g).0 == i && 0 <= CellOf(o, g).1 < rows then 1 else 0)
  {
    if rows > 0 {
      ColumnTotalSnoc(bodies, o, g, i, rows - 1);
      CellContentsSnoc(bodies, o, g, i, rows - 1);
    }
  }

  lemma {:induction false} GridTotalSnoc(bodies: seq<Body>, o: Body, g: int, cols: int, rows: int)
    requires g > 0
    ensures GridTotal(bodies + [o], g, cols, rows) ==
      GridTotal(bodies, g, cols, rows) + (if 0 <= CellOf(o, g).0 < cols && 0 <= CellOf(o, g).1 < rows then 1 else 0)
  {
    if cols > 0 {
      GridTotalSnoc(bodies, o, g, cols - 1, rows);
      ColumnTotalSnoc(bodies, o, g, cols - 1, rows);
    }
  }

  /** After one rebuild the grid holds exactly one entry per sprite whose bucket is in
      range: the sprites off the grid are dropped and no sprite is entered twice. */
  lemma {:induction false} GridTotalCount(bodies: seq<Body>, g: int, cols: int, rows: int)
    requires g > 0
    ensures GridTotal(bodies, g, cols, rows) == InGridCount(bodies, g, cols, rows)
  {
    if bodies == [] {
      EmptyTotal(g, cols, rows);
    } else {
      var init := bodies[..|bodies| - 1];
      var last := bodies[|bodies| - 1];
      assert bodies == init + [last];
      GridTotalCount(init, g, cols, rows);
      GridTotalSnoc(init, last, g, cols, rows);
    }
  }

  lemma {:induction false} EmptyTotal(g: int, cols: int, rows: int)
    requires g > 0
    ensures GridTotal([], g, cols, rows) == 0
  {
    if cols > 0 {
      EmptyTotal(g, cols - 1, rows);
      EmptyColumn(g, cols - 1, rows);
    }
  }

  lemma {:induction false} EmptyColumn(g: int, i: int, rows: int)
    requires g > 0
    ensures ColumnTotal([], g, i, rows) == 0
  {
    if rows > 0 {
      EmptyColumn(g, i, rows - 1);
    }
  }

  // ---------------------------------------------------------------------------
  // Properties of the scan

  /** Every event against a bucket is a hit of `a` on a sprite of that bucket. */
  lemma {:induction false} EventsAgainstSound(a: Body, others: seq<Body>)
    ensures forall e :: e in EventsAgainst(a, others) ==>
      exists o :: o in others && Hit(a, o) && e == EventOf(a, o)
  {
    if others != [] {
      var init := others[..|others| - 1];
      EventsAgainstSound(a, init);
      forall e | e in EventsAgainst(a, init) ensures exists o :: o in others && Hit(a, o) && e == EventOf(a, o) {
        var o :| o in init && Hit(a, o) && e == EventOf(a, o);
        assert o in others;
      }
    }
  }

  /** Every event of a column scan is a hit on a listed sprite whose bucket is in that
      column and row range. */
  lemma {:induction false} ScanColumnSound(a: Body, bodies: seq<Body>, g: int, i: int, jlo: int, jhi: int)
    requires g > 0
    decreases jhi - jlo
    ensures forall e :: e in ScanColumn(a, bodies, g, i, jlo, jhi) ==>
      exists o :: o in bodies && Hit(a, o) && e == EventOf(a, o) && CellOf(o, g).0 == i && jlo <= CellOf(o, g).1 < jhi
  {
    if jhi > jlo {
      ScanColumnSound(a, bodies, g, i, jlo, jhi - 1);
      var cell := CellContents(bodies, g, i, jhi - 1);
      EventsAgainstSound(a, cell);
      forall e | e in EventsAgainst(a, cell)
        ensures exists o :: o in bodies && Hit(a, o) && e == EventOf(a, o) && CellOf(o, g).0 == i && jlo <= CellOf(o, g).1 < jhi
      {
        var o :| o in cell && Hit(a, o) && e == EventOf(a, o);
        CellMember(bodies, g, i, jhi - 1, o);
      }
    }
  }

  /** Every event of a block scan is a hit on a listed sprite whose bucket is in that block. */
  lemma {:induction false} ScanBlockSound(a: Body, bodies: seq<Body>, g: int, ilo: int, ihi: int, jlo: int, jhi: int)
    requires g > 0
    decreases ihi - ilo
    ensures forall e :: e in ScanBlock(a, bodies, g, ilo, ihi, jlo, jhi) ==>
      exists o :: o in bodies && Hit(a, o) && e == EventOf(a, o) && ilo <= CellOf(o, g).0 < ihi && jlo <= CellOf(o, g).1 < jhi
  {
    if ihi > ilo {
      ScanBlockSound(a, bodies, g, ilo, ihi - 1, jlo, jhi);
      ScanColumnSound(a, bodies, g, ihi - 1, jlo, jhi);
    }
  }

  /** A bucket holds nothing a sprite that is neither the player nor a bullet reports. */
  lemma {:induction false} EventsAgainstIdle(a: Body, others: seq<Body>)
    requires a.kind != PLAYER && a.kind != BULLET
    ensures EventsAgainst(a, others) == []
  {
    if others != [] {
      EventsAgainstIdle(a, others[..|others| - 1]);
    }
  }

  /** A column scan over no rows, or from a sprite that is neither the player nor a
      bullet, reports nothing. */
  lemma {:induction false} ScanColumnIdle(a: Body, bodies: seq<Body>, g: int, i: int, jlo: int, jhi: int)
    requires g > 0 && (jhi <= jlo || (a.kind != PLAYER && a.kind != BULLET))
    decreases jhi - jlo
    ensures ScanColumn(a, bodies, g, i, jlo, jhi) == []
  {
    if jhi > jlo {
      ScanColumnIdle(a, bodies, g, i, jlo, jhi - 1);
      EventsAgainstIdle(a, CellContents(bodies, g, i, jhi - 1));
    }
  }

  /** The same for a block scan. */
  lemma {:induction false} ScanBlockIdle(a: Body, bodies: seq<Body>, g: int, ilo: int, ihi: int, jlo: int, jhi: int)
    requires g > 0 && (jhi <= jlo || (a.kind != PLAYER && a.kind != BULLET))
    decreases ihi - ilo
    ensures ScanBlock(a, bodies, g, ilo, ihi, jlo, jhi) == []
  {
    if ihi > ilo {
      ScanBlockIdle(a, bodies, g, ilo, ihi - 1, jlo, jhi);
      ScanColumnIdle(a, bodies, g, ihi - 1, jlo, jhi);
    }
  }

  /** What `checkCollisionsForSprite` reports: only hits of `a` (so never on `a` itself,
      only on enemies, only from the player or a bullet, each through the listener method
      of its kind), only on listed sprites whose bucket is in the grid and at most one
      bucket away from `a`'s on each axis; an enemy or explosion reports nothing. */
  lemma SpriteEventsSound(a: Body, bodies: seq<Body>, g: int, cols: int, rows: int)
    requires g > 0
    ensures forall e :: e in SpriteEvents(a, bodies, g, cols, rows) ==>
      exists o :: o in bodies && Hit(a, o) && e == EventOf(a, o) &&
        0 <= CellOf(o, g).0 < cols && 0 <= CellOf(o, g).1 < rows &&
        -1 <= CellOf(o, g).0 - CellOf(a, g).0 <= 1 && -1 <= CellOf(o, g).1 - CellOf(a, g).1 <= 1
    ensures a.kind == ENEMY || a.kind == EXPLOSION ==> SpriteEvents(a, bodies, g, cols, rows) == []
  {
    var c := CellOf(a, g);
    var ilo, ihi := NearLo(c.0), NearHi(c.0, cols);
    var jlo, jhi := NearLo(c.1), NearHi(c.1, rows);
    ScanBlockSound(a, bodies, g, ilo, ihi, jlo, jhi);
    if a.kind == ENEMY || a.kind == EXPLOSION {
      ScanBlockIdle(a, bodies, g, ilo, ihi, jlo, jhi);
    }
  }

  /** Every event of a cycle is a hit by a sprite scanned in it on a listed sprite. */
  lemma {:induction false} CycleEventsSound(scan: seq<Body>, bodies: seq<Body>, g: int, cols: int, rows: int)
    requires g > 0
    ensures forall e :: e in CycleEvents(scan, bodies, g, cols, rows) ==>
      exists a, o :: a in scan && o in bodies && Hit(a, o) && e == EventOf(a, o)
  {
    if scan != [] {
      var init := scan[..|scan| - 1];
      var last := scan[|scan| - 1];
      CycleEventsSound(init, bodies, g, cols, rows);
      SpriteEventsSound(last, bodies, g, cols, rows);
      forall e | e in CycleEvents(scan, bodies, g, cols, rows)
        ensures exists a, o :: a in scan && o in bodies && Hit(a, o) && e == EventOf(a, o)
      {
        if e in CycleEvents(init, bodies, g, cols, rows) {
          var a, o :| a in init && o in bodies && Hit(a, o) && e == EventOf(a, o);
          assert a in scan;
        } else {
          var o :| o in bodies && Hit(last, o) && e == EventOf(last, o);
          assert last in scan;
        }
      }
    }
  }

  /** The events against one bucket: `a`'s event on `o` occurs once per occurrence of `o`
      when `a` hits `o`, and never otherwise. */
  lemma {:induction false} EventsAgainstCount(a: Body, others: seq<Body>, o: Body)
    requires OnlyBody(others, o)
    ensures multiset(EventsAgainst(a, others))[EventOf(a, o)] == if Hit(a, o) then multiset(others)[o] else 0
  {
    if others != [] {
      var init := others[..|others| - 1];
      var last := others[|others| - 1];
      assert others == init + [last];
      EventsAgainstCount(a, init, o);
      if Hit(a, last) {
        assert (EventOf(a, last) == EventOf(a, o)) == (last == o);
      }
    }
  }

  lemma {:induction false} ScanColumnCount(a: Body, bodies: seq<Body>, g: int, i: int, jlo: int, jhi: int, o: Body)
    requires g > 0 && OnlyBody(bodies, o)
    decreases jhi - jlo
    ensures multiset(ScanColumn(a, bodies, g, i, jlo, jhi))[EventOf(a, o)] ==
      if Hit(a, o) && CellOf(o, g).0 == i && jlo <= CellOf(o, g).1 < jhi then multiset(bodies)[o] else 0
  {
    if jhi > jlo {
      var j := jhi - 1;
      var e := EventOf(a, o);
      var prev := ScanColumn(a, bodies, g, i, jlo, j);
      var cell := CellContents(bodies, g, i, j);
      assert ScanColumn(a, bodies, g, i, jlo, jhi) == prev + EventsAgainst(a, cell);
      ScanColumnCount(a, bodies, g, i, jlo, j, o);
      forall b | b in cell ensures b in bodies {
        CellMember(bodies, g, i, j, b);
      }
      EventsAgainstCount(a, cell, o);
      CellCount(bodies, g, i, j, o);
      var total := multiset(ScanColumn(a, bodies, g, i, jlo, jhi))[e];
      assert total == multiset(prev)[e] + multiset(EventsAgainst(a, cell))[e];
      var c := CellOf(o, g);
      var inRange := c.0 == i && jlo <= c.1 < jhi;
      if !Hit(a, o) {
        assert total == 0;
      } else if c.0 == i && c.1 == j {
        assert inRange && total == multiset(bodies)[o];
      } else {
        assert inRange == (c.0 == i && jlo <= c.1 < j);
        assert total == multiset(prev)[e];
      }
    } else {
      assert ScanColumn(a, bodies, g, i, jlo, jhi) == [];
    }
  }

  lemma {:induction false} ScanBlockCount(a: Body, bodies: seq<Body>, g: int, ilo: int, ihi: int, jlo: int, jhi: int, o: Body)
    requires g > 0 && OnlyBody(bodies, o)
    decreases ihi - ilo
    ensures multiset(ScanBlock(a, bodies, g, ilo, ihi, jlo, jhi))[EventOf(a, o)] ==
      if Hit(a, o) && ilo <= CellOf(o, g).0 < ihi && jlo <= CellOf(o, g).1 < jhi then multiset(bodies)[o] else 0
  {
    if ihi > ilo {
      ScanBlockCount(a, bodies, g, ilo, ihi - 1, jlo, jhi, o);
      ScanColumnCount(a, bodies, g, ihi - 1, jlo, jhi, o);
    }
  }

  /** Scanning from `a` reports its hit on `o` once per occurrence of `o` in the list when
      `o`'s bucket is in the grid and next to (or the same as) `a`'s, and never when it is not. */
  lemma SpriteEventsCount(a: Body, bodies: seq<Body>, g: int, cols: int, rows: int, o: Body)
    requires g > 0 && OnlyBody(bodies, o)
    ensures var ca := CellOf(a, g); var co := CellOf(o, g);
      multiset(SpriteEvents(a, bodies, g, cols, rows))[EventOf(a, o)] ==
      if Hit(a, o) && 0 <= co.0 < cols && 0 <= co.1 < rows && -1 <= co.0 - ca.0 <= 1 && -1 <= co.1 - ca.1 <= 1
      then multiset(bodies)[o] else 0
  {
    var c := CellOf(a, g);
    var ilo, ihi := NearLo(c.0), NearHi(c.0, cols);
    var jlo, jhi := NearLo(c.1), NearHi(c.1, rows);
    ScanBlockCount(a, bodies, g, ilo, ihi, jlo, jhi, o);
  }

  /** The scan never leaves the grid; a sprite whose bucket is more than one bucket off the
      grid looks at no bucket and reports nothing. */
  lemma FarOffGridSilent(a: Body, bodies: seq<Body>, g: int, cols: int, rows: int)
    requires g > 0
    ensures var c := CellOf(a, g);
      0 <= NearLo(c.0) && NearHi(c.0, cols) <= cols &&
      0 <= NearLo(c.1) && NearHi(c.1, rows) <= rows
    ensures var c := CellOf(a, g);
      c.0 < -1 || c.0 > cols || c.1 < -1 || c.1 > rows ==> SpriteEvents(a, bodies, g, cols, rows) == []
  {
    var c := CellOf(a, g);
    var ilo, ihi := NearLo(c.0), NearHi(c.0, cols);
    var jlo, jhi := NearLo(c.1), NearHi(c.1, rows);
    if c.1 < -1 || c.1 > rows {
      ScanBlockIdle(a, bodies, g, ilo, ihi, jlo, jhi);
    }
  }

  /** An overlapping player and enemy, the enemy listed once, with buckets in the grid and
      next to each other: the player's scan reports the pair exactly once and the enemy's
      scan reports nothing. */
  lemma PlayerHitsEnemyOnce(player: Body, enemy: Body, bodies: seq<Body>, g: int, cols: int, rows: int)
    requires g > 0 && Distinct(bodies) && enemy in bodies && OnlyBody(bodies, enemy)
    requires player.kind == PLAYER && enemy.kind == ENEMY && player.sprite != enemy.sprite && Intersects(player.box, enemy.box)
    requires var cp := CellOf(player, g); var ce := CellOf(enemy, g);
      0 <= ce.0 < cols && 0 <= ce.1 < rows && -1 <= ce.0 - cp.0 <= 1 && -1 <= ce.1 - cp.1 <= 1
    ensures multiset(SpriteEvents(player, bodies, g, cols, rows))[PlayerEnemy(player.sprite, enemy.sprite)] == 1
    ensures SpriteEvents(enemy, bodies, g, cols, rows) == []
  {
    SpriteEventsCount(player, bodies, g, cols, rows, enemy);
    DistinctCount(bodies, enemy);
    SpriteEventsSound(enemy, bodies, g, cols, rows);
  }

  /** Over a whole cycle in which each sprite is scanned once, that player-enemy pair is
      reported exactly once. */
  lemma {:induction false} CyclePlayerHitsEnemyOnce(scan: seq<Body>, player: Body, enemy: Body, bodies: seq<Body>, g: int, cols: int, rows: int)
    requires g > 0 && Distinct(bodies) && enemy in bodies && OnlyBody(bodies, enemy)
    requires player in scan && OnlyBody(scan, player)
    requires player.kind == PLAYER && enemy.kind == ENEMY && player.sprite != enemy.sprite && Intersects(player.box, enemy.box)
    requires var cp := CellOf(player, g); var ce := CellOf(enemy, g);
      0 <= ce.0 < cols && 0 <= ce.1 < rows && -1 <= ce.0 - cp.0 <= 1 && -1 <= ce.1 - cp.1 <= 1
    requires Distinct(scan)
    ensures multiset(CycleEvents(scan, bodies, g, cols, rows))[PlayerEnemy(player.sprite, enemy.sprite)] == 1
  {
    var init := scan[..|scan| - 1];
    var last := scan[|scan| - 1];
    assert scan == init + [last];
    if last == player {
      PlayerHitsEnemyOnce(player, enemy, bodies, g, cols, rows);
      assert player !in init;
      NoEventsFrom(init, player, enemy, bodies, g, cols, rows);
    } else {
      assert Distinct(init) && player in init;
      CyclePlayerHitsEnemyOnce(init, player, enemy, bodies, g, cols, rows);
      NoEventsFrom([last], player, enemy, bodies, g, cols, rows);
      assert CycleEvents([last], bodies, g, cols, rows) == SpriteEvents(last, bodies, g, cols, rows);
    }
  }

  /** A cycle that scans no body of the player's sprite reports no hit by it. */
  lemma {:induction false} NoEventsFrom(scan: seq<Body>, player: Body, enemy: Body, bodies: seq<Body>, g: int, cols: int, rows: int)
    requires g > 0 && forall a :: a in scan ==> a.sprite != player.sprite
    ensures multiset(CycleEvents(scan, bodies, g, cols, rows))[PlayerEnemy(player.sprite, enemy.sprite)] == 0
  {
    var e := PlayerEnemy(player.sprite, enemy.sprite);
    if scan != [] {
      var init := scan[..|scan| - 1];
      var last := scan[|scan| - 1];
      assert forall a :: a in init ==> a in scan;
      NoEventsFrom(init, player, enemy, bodies, g, cols, rows);
      assert last in scan;
      forall o | o in bodies ensures EventOf(last, o) != e {
      }
      SpriteEventsSound(last, bodies, g, cols, rows);
      assert e !in SpriteEvents(last, bodies, g, cols, rows);
      assert e !in CycleEvents(scan, bodies, g, cols, rows);
    }
  }

  /** One more sprite scanned adds its own events at the end. */
  lemma CycleEventsStep(scan: seq<Body>, k: int, bodies: seq<Body>, g: int, cols: int, rows: int)
    requires g > 0 && 0 <= k < |scan|
    ensures CycleEvents(scan[..k + 1], bodies, g, cols, rows) ==
      CycleEvents(scan[..k], bodies, g, cols, rows) + SpriteEvents(scan[k], bodies, g, cols, rows)
  {
    assert scan[..k + 1][..k] == scan[..k];
  }

  // ---------------------------------------------------------------------------
  // The thread object

  /** The loop of `checkCollisionsForSprite` over the sprites of one bucket, with the
      bodies `cb` describing them. */
  method CheckCell(s: AnimatedSprite, cell: seq<AnimatedSprite>, ghost sb: Body, ghost cb: seq<Body>) returns (events: seq<CollisionEvent>)
    requires sb == BodyOf(s) && cell == SpritesOf(cb) && Current(cb)
    ensures events == EventsAgainst(sb, cb)
  {
    events := [];
    var k := 0;
    while k < |cell|
      invariant 0 <= k <= |cell|
      invariant events == EventsAgainst(sb, cb[..k])
      invariant sb == BodyOf(s) && Current(cb)
    {
      var other := cell[k];
      assert cb[k] in cb && cb[k].sprite == other;
      assert cb[..k + 1][..k] == cb[..k];
      if s != other && s.CollideWith(other) {
        if s.kind == PLAYER && other.kind == ENEMY {
          events := events + [PlayerEnemy(s, other)];
        } else if s.kind == BULLET && other.kind == ENEMY {
          events := events + [BulletEnemy(s, other)];
        }
      }
      k := k + 1;
    }
    assert cb[..k] == cb;
  }

  class CollisionThread {
    const gridSize: int                          // mGridSize
    const screenWidth: int                       // mScreenWidth
    const screenHeight: int                      // mScreenHeight
    const grid: array2<seq<AnimatedSprite>>      // mGrid
    var running: bool

    /** The grid's shape as the constructor made it. */
    ghost predicate Valid()
      reads this
    {
      && gridSize > 0
      && grid.Length0 == JavaDiv(screenWidth, gridSize) + 1
      && grid.Length1 == JavaDiv(screenHeight, gridSize) + 1
    }

    /** The grid holds what dropping the sprites of `bodies` into an empty grid puts there. */
    ghost predicate Holds(bodies: seq<Body>)
      reads this, grid
    {
      && Valid()
      && forall i, j :: 0 <= i < grid.Length0 && 0 <= j < grid.Length1 ==>
           grid[i, j] == SpritesOf(CellContents(bodies, gridSize, i, j))
    }

    /** `new CollisionThread(sprites, gridSize, screenWidth, screenHeight, listener)`: a grid
        of `screenWidth / gridSize + 1` columns and `screenHeight / gridSize + 1` rows of
        empty buckets, and the thread marked running. The array size may not be negative. */
    constructor (gridSize: int, screenWidth: int, screenHeight: int)
      requires gridSize > 0
      requires JavaDiv(screenWidth, gridSize) >= -1 && JavaDiv(screenHeight, gridSize) >= -1
      ensures Valid() && fresh(grid) && running
      ensures this.gridSize == gridSize && this.screenWidth == screenWidth && this.screenHeight == screenHeight
      ensures forall i, j :: 0 <= i < grid.Length0 && 0 <= j < grid.Length1 ==> grid[i, j] == []
    {
      var cols := JavaDiv(screenWidth, gridSize) + 1;
      var rows := JavaDiv(screenHeight, gridSize) + 1;
      var cells := new seq<AnimatedSprite>[cols, rows];
      var i := 0;
      while i < cols
        invariant 0 <= i <= cols
        invariant forall a, b :: 0 <= a < i && 0 <= b < rows ==> cells[a, b] == []
      {
        var j := 0;
        while j < rows
          invariant 0 <= j <= rows
          invariant forall a, b :: 0 <= a < i && 0 <= b < rows ==> cells[a, b] == []
          invariant forall b :: 0 <= b < j ==> cells[i, b] == []
        {
          cells[i, j] := [];
          j := j + 1;
        }
        i := i + 1;
      }
      this.gridSize := gridSize;
      this.screenWidth := screenWidth;
      this.screenHeight := screenHeight;
      this.grid := cells;
      running := true;
    }

    /** `clearGrid()`: every bucket empty. */
    method ClearGrid()
      requires Valid()
      modifies grid
      ensures forall i, j :: 0 <= i < grid.Length0 && 0 <= j < grid.Length1 ==> grid[i, j] == []
      ensures Holds([])
    {
      var i := 0;
      while i < grid.Length0
        invariant 0 <= i <= grid.Length0
        invariant forall a, b :: 0 <= a < i && 0 <= b < grid.Length1 ==> grid[a, b] == []
      {
        var j := 0;
        while j < grid.Length1
          invariant 0 <= j <= grid.Length1
          invariant forall a, b :: 0 <= a < i && 0 <= b < grid.Length1 ==> grid[a, b] == []
          invariant forall b :: 0 <= b < j ==> grid[i, b] == []
        {
          grid[i, j] := [];
          j := j + 1;
        }
        i := i + 1;
      }
    }

    /** `addSpriteToGrid(s)`: `s` is appended to its own bucket when that bucket is in the
        grid; otherwise, and for every other bucket, nothing changes. So a grid that holds
        `bodies` then holds `bodies` followed by the body of `s`. */
    method AddSpriteToGrid(s: AnimatedSprite, ghost bodies: seq<Body>)
      requires Valid()
      modifies grid
      ensures var c := CellOf(BodyOf(s), gridSize);
        forall i, j :: 0 <= i < grid.Length0 && 0 <= j < grid.Length1 ==>
          grid[i, j] == if (i, j) == c then old(grid[i, j]) + [s] else old(grid[i, j])
      ensures old(Holds(bodies)) ==> Holds(bodies + [BodyOf(s)])
    {
      ghost var b := BodyOf(s);
      var x := BucketIndex(s.x, gridSize);
      var y := BucketIndex(s.y, gridSize);
      if x >= 0 && x < grid.Length0 && y >= 0 && y < grid.Length1 {
        grid[x, y] := grid[x, y] + [s];
      }
      forall i, j | 0 <= i < grid.Length0 && 0 <= j < grid.Length1
        ensures SpritesOf(CellContents(bodies + [b], gridSize, i, j)) ==
          SpritesOf(CellContents(bodies, gridSize, i, j)) + (if (i, j) == (x, y) then [s] else [])
      {
        CellContentsSnoc(bodies, b, gridSize, i, j);
        SpritesOfSnoc(CellContents(bodies, gridSize, i, j), b);
      }
    }

    /** The first half of one `run` cycle: clear the grid and drop every sprite in. The
        grid then holds the bodies of the list. */
    method Rebuild(sprites: seq<AnimatedSprite>, ghost bodies: seq<Body>)
      requires Valid() && SpritesOf(bodies) == sprites && Current(bodies)
      modifies grid
      ensures Holds(bodies)
    {
      ClearGrid();
      var k := 0;
      while k < |sprites|
        invariant 0 <= k <= |sprites|
        invariant Holds(bodies[..k])
      {
        assert bodies[k] in bodies && bodies[k].sprite == sprites[k];
        AddSpriteToGrid(sprites[k], bodies[..k]);
        assert bodies[..k + 1] == bodies[..k] + [bodies[k]];
        k := k + 1;
      }
      assert bodies[..k] == bodies;
    }

    /** The `j` loop of `checkCollisionsForSprite` over column `i`, rows `jlo` to `jhi`. */
    method CheckColumn(s: AnimatedSprite, i: int, jlo: int, jhi: int, ghost sb: Body, ghost bodies: seq<Body>) returns (events: seq<CollisionEvent>)
      requires Holds(bodies) && Current(bodies) && sb == BodyOf(s)
      requires 0 <= i < grid.Length0 && 0 <= jlo && jhi < grid.Length1
      ensures events == ScanColumn(sb, bodies, gridSize, i, jlo, jhi + 1)
    {
      events := [];
      var j := jlo;
      while j <= jhi
        invariant jlo <= j && (j <= jhi + 1 || j == jlo)
        invariant events == ScanColumn(sb, bodies, gridSize, i, jlo, j)
        invariant Holds(bodies) && Current(bodies) && sb == BodyOf(s)
      {
        CellCurrent(bodies, gridSize, i, j);
        var found := CheckCell(s, grid[i, j], sb, CellContents(bodies, gridSize, i, j));
        events := events + found;
        j := j + 1;
      }
    }

    /** The `i` loop of `checkCollisionsForSprite`: columns `ilo` to `ihi`, rows `jlo` to `jhi`. */
    method CheckBlock(s: AnimatedSprite, ilo: int, ihi: int, jlo: int, jhi: int, ghost sb: Body, ghost bodies: seq<Body>) returns (events: seq<CollisionEvent>)
      requires Holds(bodies) && Current(bodies) && sb == BodyOf(s)
      requires 0 <= ilo && ihi < grid.Length0 && 0 <= jlo && jhi < grid.Length1
      ensures events == ScanBlock(sb, bodies, gridSize, ilo, ihi + 1, jlo, jhi + 1)
    {
      events := [];
      var i := ilo;
      while i <= ihi
        invariant ilo <= i && (i <= ihi + 1 || i == ilo)
        invariant events == ScanBlock(sb, bodies, gridSize, ilo, i, jlo, jhi + 1)
        invariant Holds(bodies) && Current(bodies) && sb == BodyOf(s)
      {
        var found := CheckColumn(s, i, jlo, jhi, sb, bodies);
        events := events + found;
        i := i + 1;
      }
    }

    /** `checkCollisionsForSprite(s)` on a grid that holds `bodies`: the events of the
        clamped block of buckets around `s`, in loop order. */
    method CheckCollisionsForSprite(s: AnimatedSprite, ghost sb: Body, ghost bodies: seq<Body>) returns (events: seq<CollisionEvent>)
      requires Holds(bodies) && Current(bodies) && sb == BodyOf(s)
      ensures events == SpriteEvents(sb, bodies, gridSize, grid.Length0, grid.Length1)
    {
      var x := BucketIndex(s.x, gridSize);
      var y := BucketIndex(s.y, gridSize);
      var ilo, ihi := Max(0, x - 1), Min(grid.Length0 - 1, x + 1);
      var jlo, jhi := Max(0, y - 1), Min(grid.Length1 - 1, y + 1);
      assert (x, y) == CellOf(sb, gridSize);
      assert ilo == NearLo(x) && ihi + 1 == NearHi(x, grid.Length0);
      assert jlo == NearLo(y) && jhi + 1 == NearHi(y, grid.Length1);
      events := CheckBlock(s, ilo, ihi, jlo, jhi, sb, bodies);
    }

    /** The second loop of a cycle: `checkCollisionsForSprite` for every sprite in turn,
        on the grid just rebuilt from the same list. */
    method CheckAll(sprites: seq<AnimatedSprite>, ghost bodies: seq<Body>) returns (events: seq<CollisionEvent>)
      requires Holds(bodies) && Current(bodies) && SpritesOf(bodies) == sprites
      ensures events == CycleEvents(bodies, bodies, gridSize, grid.Length0, grid.Length1)
    {
      events := [];
      var k := 0;
      while k < |sprites|
        invariant 0 <= k <= |sprites|
        invariant events == CycleEvents(bodies[..k], bodies, gridSize, grid.Length0, grid.Length1)
        invariant Holds(bodies) && Current(bodies)
      {
        assert bodies[k] in bodies && bodies[k].sprite == sprites[k];
        var found := CheckCollisionsForSprite(sprites[k], bodies[k], bodies);
        CycleEventsStep(bodies, k, bodies, gridSize, grid.Length0, grid.Length1);
        events := events + found;
        k := k + 1;
      }
      assert bodies[..k] == bodies;
    }

    /** One iteration of the `run` loop over `sprites`: rebuild the grid, then scan from
        every sprite in list order. The events are the cycle's listener calls, computed
        from the sprites as they are during the cycle. */
    method RunCycle(sprites: seq<AnimatedSprite>) returns (events: seq<CollisionEvent>)
      requires Valid()
      modifies grid
      ensures Holds(Snapshot(sprites))
      ensures events == CycleEvents(Snapshot(sprites), Snapshot(sprites), gridSize, grid.Length0, grid.Length1)
    {
      ghost var bodies := Snapshot(sprites);
      SnapshotCurrent(sprites);
      Rebuild(sprites, bodies);
      events := CheckAll(sprites, bodies);
    }

    /** `shutDown()`: the `run` loop stops before its next cycle. */
    method ShutDown()
      modifies this`running
      ensures !running
    {
      running := false;
    }
  }
}

