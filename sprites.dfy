/** The pieces both variants of the game share: the window geometry, pygame's
    integer rectangles and their overlap test, the four sprite kinds (ship,
    bullet, asteroid, power-up) with their per-tick updates, the pygame group
    operations the main loops call, and the inputs one frame consumes.

    Both source files define the same sprite classes; they differ only in the
    flicker alpha, which each variant module defines for itself. */
module Sprites {

  // ---------------------------------------------------------------- geometry

  const WIDTH := 1080
  const HEIGHT := 720
  const FPS := 60

  const MAX_LIVES := 5
  const ENEMY_COUNT := 5

  const SHIP_W := 60
  const SHIP_H := 50
  const SHIP_SPEED := 5
  /** rect.bottom = HEIGHT - 10 */
  const SHIP_Y := HEIGHT - 10 - SHIP_H
  /** rect.centerx = WIDTH // 2 */
  const SHIP_START_X := WIDTH / 2 - SHIP_W / 2

  const BULLET_W := 5
  const BULLET_H := 10
  const BULLET_SPEED := -7

  const ENEMY_SIZE := 50
  const POWERUP_SIZE := 40
  const POWERUP_SPEED := 3

  /** pygame's Rect: an integer top-left corner (left = x, top = y) and a size. */
  datatype Rect = Rect(x: int, y: int, w: int, h: int) {
    function Right(): int { x + w }
    function Bottom(): int { y + h }
    function CenterX(): int { x + w / 2 }
    function CenterY(): int { y + h / 2 }

    /** The pixel (px, py) lies inside the rectangle. */
    predicate Covers(px: int, py: int) {
      x <= px < x + w && y <= py < y + h
    }

    /** Rect.colliderect for rectangles of positive size: some pixel lies in
        both (rectangles that only share an edge do not collide). */
    predicate Collides(o: Rect): (b: bool)
      ensures 0 < w && 0 < h && 0 < o.w && 0 < o.h ==>
        (b <==> exists px, py :: Covers(px, py) && o.Covers(px, py))
      ensures x + w == o.x || o.x + o.w == x || y + h == o.y || o.y + o.h == y ==> !b
    {
      var px := if x < o.x then o.x else x;
      var py := if y < o.y then o.y else y;
      assert (0 < w && 0 < h && 0 < o.w && 0 < o.h &&
              x < o.x + o.w && o.x < x + w && y < o.y + o.h && o.y < y + h) ==>
        Covers(px, py) && o.Covers(px, py);
      x < o.x + o.w && o.x < x + w && y < o.y + o.h && o.y < y + h
    }
  }

  // ----------------------------------------------------------------- sprites

  /** A bullet, an asteroid or a power-up: a rectangle and a vertical speed.
      The three classes carry the same data and differ in behaviour only. */
  datatype Sprite = Sprite(rect: Rect, speed: int)

  /** rect.y += speed, the first step of every sprite's update. */
  function Fly(s: Sprite): Sprite {
    s.(rect := s.rect.(y := s.rect.y + s.speed))
  }

  predicate IsBullet(b: Sprite) {
    b.rect.w == BULLET_W && b.rect.h == BULLET_H && b.speed == BULLET_SPEED &&
    0 <= b.rect.x && b.rect.Right() <= WIDTH &&
    0 <= b.rect.Bottom() && b.rect.y <= SHIP_Y - BULLET_H / 2
  }

  predicate IsEnemy(e: Sprite) {
    e.rect.w == ENEMY_SIZE && e.rect.h == ENEMY_SIZE && 2 <= e.speed <= 5 &&
    0 <= e.rect.x <= WIDTH - ENEMY_SIZE && -100 <= e.rect.y <= HEIGHT
  }

  predicate IsPowerUp(p: Sprite) {
    p.rect.w == POWERUP_SIZE && p.rect.h == POWERUP_SIZE && p.speed == POWERUP_SPEED &&
    0 <= p.rect.x <= WIDTH - POWERUP_SIZE && -150 <= p.rect.y <= HEIGHT
  }

  // ------------------------------------------------------------ random draws

  /** The values random.randint supplies are inputs of the model. */
  datatype Spot = Spot(x: int, y: int)
  datatype EnemyDraw = EnemyDraw(x: int, y: int, speed: int)

  predicate EnemySpotOk(p: Spot) {
    0 <= p.x <= WIDTH - ENEMY_SIZE && -100 <= p.y <= -40
  }

  predicate EnemyDrawOk(d: EnemyDraw) {
    EnemySpotOk(Spot(d.x, d.y)) && 2 <= d.speed <= 5
  }

  predicate PowerUpSpotOk(p: Spot) {
    0 <= p.x <= WIDTH - POWERUP_SIZE && -150 <= p.y <= -50
  }

  predicate EnemyDrawsOk(ds: seq<EnemyDraw>) {
    forall d :: d in ds ==> EnemyDrawOk(d)
  }

  /** The draws one tick may consume: a recycling spot for the enemy at each
      index (used only if that enemy leaves the screen), a stream of new-enemy
      draws consumed in order, and the spot of a power-up (used only if the
      spawn timer fires). */
  datatype Draws = Draws(recycle: seq<Spot>, spawns: seq<EnemyDraw>, powerup: Spot)

  predicate DrawsOk(d: Draws) {
    (forall p :: p in d.recycle ==> EnemySpotOk(p)) &&
    EnemyDrawsOk(d.spawns) && PowerUpSpotOk(d.powerup)
  }

  // ------------------------------------------------------------ constructors

  /** Bullet(x, y): a 5x10 rectangle centred on (x, y), moving up. */
  function NewBullet(cx: int, cy: int): (b: Sprite)
    ensures b.rect.CenterX() == cx && b.rect.CenterY() == cy
    ensures b.rect.w == BULLET_W && b.rect.h == BULLET_H && b.speed == BULLET_SPEED
  {
    Sprite(Rect(cx - BULLET_W / 2, cy - BULLET_H / 2, BULLET_W, BULLET_H), BULLET_SPEED)
  }

  /** Enemy(): a 50x50 asteroid at a random spot above the window. */
  function NewEnemy(d: EnemyDraw): (e: Sprite)
    requires EnemyDrawOk(d)
    ensures IsEnemy(e) && e.rect.x == d.x && e.rect.y == d.y && e.speed == d.speed
  {
    Sprite(Rect(d.x, d.y, ENEMY_SIZE, ENEMY_SIZE), d.speed)
  }

  /** PowerUp(): a 40x40 star at a random spot above the window. */
  function NewPowerUp(p: Spot): (u: Sprite)
    requires PowerUpSpotOk(p)
    ensures IsPowerUp(u) && u.rect.x == p.x && u.rect.y == p.y
  {
    Sprite(Rect(p.x, p.y, POWERUP_SIZE, POWERUP_SIZE), POWERUP_SPEED)
  }

  /** The enemies one run of `Enemy()` calls creates, in order. */
  function Spawned(ds: seq<EnemyDraw>): (es: seq<Sprite>)
    requires EnemyDrawsOk(ds)
    ensures |es| == |ds|
    ensures forall i :: 0 <= i < |ds| ==> es[i] == NewEnemy(ds[i])
    ensures forall e :: e in es ==> IsEnemy(e)
  {
    seq(|ds|, i requires 0 <= i < |ds| => NewEnemy(ds[i]))
  }

  /** `for _ in range(5): enemies.add(Enemy())`, for any number of draws. */
  method SpawnEnemies(ds: seq<EnemyDraw>) returns (es: seq<Sprite>)
    requires EnemyDrawsOk(ds)
    ensures es == Spawned(ds)
  {
    es := [];
    var i := 0;
    while i < |ds|
      invariant 0 <= i <= |ds|
      invariant es == Spawned(ds[..i])
    {
      assert ds[..i + 1] == ds[..i] + [ds[i]];
      es := es + [NewEnemy(ds[i])];
      i := i + 1;
    }
    assert ds[..i] == ds;
  }

  // ----------------------------------------------------------- group updates

  /** Every sprite of a group after its `rect.y += speed`, in group order. */
  function Flown(ss: seq<Sprite>): seq<Sprite> {
    seq(|ss|, i requires 0 <= i < |ss| => Fly(ss[i]))
  }

  /** bullets.update(): every bullet climbs; one whose bottom is above the
      window is killed. As a multiset the group left is exactly the moved
      bullets still on screen, each as often as it was there. */
  function UpdateBullets(bs: seq<Sprite>): (r: seq<Sprite>)
    ensures |r| <= |bs|
    ensures forall b :: b in r ==> 0 <= b.rect.Bottom() && exists o :: o in bs && b == Fly(o)
    ensures forall o :: o in bs && 0 <= Fly(o).rect.Bottom() ==> Fly(o) in r
    ensures forall b :: multiset(r)[b] == if 0 <= b.rect.Bottom() then multiset(Flown(bs))[b] else 0
    decreases |bs|
  {
    if bs == [] then []
    else
      var b := Fly(bs[0]);
      assert bs == [bs[0]] + bs[1..];
      assert Flown(bs) == [b] + Flown(bs[1..]);
      (if b.rect.Bottom() < 0 then [] else [b]) + UpdateBullets(bs[1..])
  }

  /** Enemy.update: descend; an asteroid whose top passes the bottom edge is
      put back above the window at a fresh random spot, keeping its speed. */
  function Descend(e: Sprite, p: Spot): (r: Sprite)
    ensures r.speed == e.speed && r.rect.w == e.rect.w && r.rect.h == e.rect.h
    ensures Fly(e).rect.y > HEIGHT ==> r.rect.x == p.x && r.rect.y == p.y
    ensures Fly(e).rect.y <= HEIGHT ==> r == Fly(e)
    ensures IsEnemy(e) && EnemySpotOk(p) ==> IsEnemy(r)
  {
    var m := Fly(e);
    if m.rect.y > HEIGHT then m.(rect := m.rect.(x := p.x, y := p.y)) else m
  }

  /** enemies.update(): no asteroid is ever removed. */
  function UpdateEnemies(es: seq<Sprite>, spots: seq<Spot>): (r: seq<Sprite>)
    requires |spots| >= |es|
    ensures |r| == |es|
    ensures forall i :: 0 <= i < |es| ==>
      r[i].speed == es[i].speed && r[i].rect.w == es[i].rect.w && r[i].rect.h == es[i].rect.h
    ensures forall i :: 0 <= i < |es| && Fly(es[i]).rect.y > HEIGHT ==>
      r[i].rect.x == spots[i].x && r[i].rect.y == spots[i].y
    ensures forall i :: 0 <= i < |es| && Fly(es[i]).rect.y <= HEIGHT ==> r[i] == Fly(es[i])
    ensures (forall e :: e in es ==> IsEnemy(e)) && (forall p :: p in spots ==> EnemySpotOk(p)) ==>
      forall e :: e in r ==> IsEnemy(e)
  {
    var r := seq(|es|, i requires 0 <= i < |es| => Descend(es[i], spots[i]));
    assert (forall e :: e in es ==> IsEnemy(e)) && (forall p :: p in spots ==> EnemySpotOk(p)) ==>
      forall i :: 0 <= i < |r| ==> IsEnemy(r[i]) by {
      if (forall e :: e in es ==> IsEnemy(e)) && (forall p :: p in spots ==> EnemySpotOk(p)) {
        forall i | 0 <= i < |r| ensures IsEnemy(r[i]) {
          assert IsEnemy(es[i]) && EnemySpotOk(spots[i]);
        }
      }
    }
    r
  }

  /** powerups.update(): every power-up falls; one whose top is below the
      window is killed. As a multiset the group left is exactly the moved
      power-ups still on screen. */
  function UpdatePowerUps(ps: seq<Sprite>): (r: seq<Sprite>)
    ensures |r| <= |ps|
    ensures forall p :: p in r ==> p.rect.y <= HEIGHT && exists o :: o in ps && p == Fly(o)
    ensures forall o :: o in ps && Fly(o).rect.y <= HEIGHT ==> Fly(o) in r
    ensures forall p :: multiset(r)[p] == if p.rect.y <= HEIGHT then multiset(Flown(ps))[p] else 0
    decreases |ps|
  {
    if ps == [] then []
    else
      var p := Fly(ps[0]);
      assert ps == [ps[0]] + ps[1..];
      assert Flown(ps) == [p] + Flown(ps[1..]);
      (if p.rect.y > HEIGHT then [] else [p]) + UpdatePowerUps(ps[1..])
  }

  // -------------------------------------------------------- collision tests

  /** Some member of the group overlaps `r`. */
  predicate Touching(r: Rect, group: seq<Sprite>) {
    exists s :: s in group && s.rect.Collides(r)
  }

  /** The sprites of a group that overlap a rectangle, and the others. */
  datatype Split = Split(hit: seq<Sprite>, kept: seq<Sprite>)

  /** The members of the group that overlap `r`, in group order. */
  function Hits(r: Rect, group: seq<Sprite>): seq<Sprite>
    decreases |group|
  {
    if group == [] then []
    else if group[0].rect.Collides(r) then [group[0]] + Hits(r, group[1..])
    else Hits(r, group[1..])
  }

  /** The members of the group that do not overlap `r`, in group order. */
  function Misses(r: Rect, group: seq<Sprite>): seq<Sprite>
    decreases |group|
  {
    if group == [] then []
    else if group[0].rect.Collides(r) then Misses(r, group[1..])
    else [group[0]] + Misses(r, group[1..])
  }

  /** The hits and the misses share the group out between them. */
  lemma {:induction false} HitsMissesPartition(r: Rect, group: seq<Sprite>)
    ensures multiset(Hits(r, group)) + multiset(Misses(r, group)) == multiset(group)
    decreases |group|
  {
    if group != [] {
      HitsMissesPartition(r, group[1..]);
      assert group == [group[0]] + group[1..];
    }
  }

  /** A member is a hit exactly when it overlaps `r`, and a miss otherwise;
      with no hit the misses are the whole group. */
  lemma {:induction false} HitsMissesMembers(r: Rect, group: seq<Sprite>)
    ensures forall s :: s in Hits(r, group) <==> s in group && s.rect.Collides(r)
    ensures forall s :: s in Misses(r, group) <==> s in group && !s.rect.Collides(r)
    ensures Hits(r, group) == [] ==> Misses(r, group) == group
    decreases |group|
  {
    if group != [] {
      HitsMissesMembers(r, group[1..]);
      assert group == [group[0]] + group[1..];
    }
  }

  /** pygame.sprite.spritecollide(sprite, group, dokill): the members of the
      group overlapping `r`, in group order; with dokill those are removed and
      `kept` is the group left behind. */
  function SpriteCollide(r: Rect, group: seq<Sprite>): (c: Split)
    ensures |c.hit| + |c.kept| == |group|
    ensures multiset(c.hit) + multiset(c.kept) == multiset(group)
    ensures forall s :: s in c.hit <==> s in group && s.rect.Collides(r)
    ensures forall s :: s in c.kept <==> s in group && !s.rect.Collides(r)
    ensures c.hit == [] <==> !Touching(r, group)
    ensures c.hit == [] ==> c.kept == group
  {
    HitsMissesPartition(r, group);
    HitsMissesMembers(r, group);
    var c := Split(Hits(r, group), Misses(r, group));
    assert |multiset(c.hit) + multiset(c.kept)| == |group|;
    assert c.hit != [] ==> c.hit[0] in c.hit;
    c
  }

  /** The outcome of groupcollide(enemies, bullets, True, True). */
  datatype Crash = Crash(survivors: seq<Sprite>, killed: seq<Sprite>, bullets: seq<Sprite>)

  /** pygame.sprite.groupcollide(enemies, bullets, True, True): enemies are
      visited in group order; an enemy that overlaps any bullet still alive
      is killed together with every such bullet. */
  function GroupCollide(es: seq<Sprite>, bs: seq<Sprite>): (c: Crash)
    ensures |c.survivors| + |c.killed| == |es|
    ensures |c.bullets| + |c.killed| <= |bs|
    ensures forall b :: b in c.bullets ==> b in bs
    ensures forall e :: e in c.survivors ==> e in es
    decreases |es|
  {
    if es == [] then Crash([], [], bs)
    else
      assert es == [es[0]] + es[1..];
      var s := SpriteCollide(es[0].rect, bs);
      if s.hit == [] then
        var c := GroupCollide(es[1..], bs);
        Crash([es[0]] + c.survivors, c.killed, c.bullets)
      else
        var c := GroupCollide(es[1..], s.kept);
        Crash(c.survivors, [es[0]] + c.killed, c.bullets)
  }

  /** groupcollide partitions the enemies: each one ends up a survivor or
      killed, as many times as it was in the group; the bullets left are
      bullets of the group, none of them more often than before. */
  lemma {:induction false} GroupCollideParts(es: seq<Sprite>, bs: seq<Sprite>)
    ensures var c := GroupCollide(es, bs);
      multiset(c.survivors) + multiset(c.killed) == multiset(es) && multiset(c.bullets) <= multiset(bs)
    decreases |es|
  {
    if es != [] {
      assert es == [es[0]] + es[1..];
      var s := SpriteCollide(es[0].rect, bs);
      if s.hit == [] {
        GroupCollideParts(es[1..], bs);
      } else {
        GroupCollideParts(es[1..], s.kept);
      }
    }
  }

  /** What groupcollide decides: a surviving enemy overlaps no bullet left
      alive, a killed enemy overlapped some bullet, and every bullet removed
      overlapped some killed enemy. */
  lemma {:induction false} GroupCollideSound(es: seq<Sprite>, bs: seq<Sprite>)
    ensures var c := GroupCollide(es, bs);
      (forall e :: e in c.survivors ==> forall b :: b in c.bullets ==> !b.rect.Collides(e.rect)) &&
      (forall e :: e in c.killed ==> e in es && exists b :: b in bs && b.rect.Collides(e.rect)) &&
      (forall b :: b in bs && b !in c.bullets ==> exists e :: e in c.killed && b.rect.Collides(e.rect))
    decreases |es|
  {
    if es != [] {
      assert es == [es[0]] + es[1..];
      var s := SpriteCollide(es[0].rect, bs);
      if s.hit == [] {
        GroupCollideSound(es[1..], bs);
      } else {
        var c := GroupCollide(es[1..], s.kept);
        assert GroupCollide(es, bs) == Crash(c.survivors, [es[0]] + c.killed, c.bullets);
        GroupCollideSound(es[1..], s.kept);
        assert s.hit[0] in bs && s.hit[0].rect.Collides(es[0].rect);
        forall e | e in [es[0]] + c.killed
          ensures e in es && exists b :: b in bs && b.rect.Collides(e.rect)
        {
          if e != es[0] {
            var b :| b in s.kept && b.rect.Collides(e.rect);
            assert b in bs;
          }
        }
        forall b | b in bs && b !in c.bullets
          ensures exists e :: e in [es[0]] + c.killed && b.rect.Collides(e.rect)
        {
          if b !in s.kept {
            assert b.rect.Collides(es[0].rect);
          } else {
            var e :| e in c.killed && b.rect.Collides(e.rect);
            assert e in [es[0]] + c.killed;
          }
        }
      }
    }
  }

  /** groupcollide never kills an asteroid that no bullet overlaps. */
  lemma GroupCollideSpares(es: seq<Sprite>, bs: seq<Sprite>)
    ensures forall e :: e in es && !(exists b :: b in bs && b.rect.Collides(e.rect)) ==>
      e in GroupCollide(es, bs).survivors
  {
    var c := GroupCollide(es, bs);
    forall e | e in es && !(exists b :: b in bs && b.rect.Collides(e.rect))
      ensures e in c.survivors
    {
      GroupCollideParts(es, bs);
      GroupCollideSound(es, bs);
      assert e !in c.killed;
      assert multiset(c.survivors)[e] == multiset(es)[e];
    }
  }

  // ------------------------------------------------------------------ player

  /** The keys held during a frame: key.get_pressed()[K_LEFT] and [K_RIGHT]. */
  datatype Keys = Keys(left: bool, right: bool)

  /** The player's state: rect.x (rect.y never changes), lives, and the
      invulnerability flag and countdown. */
  datatype Ship = Ship(x: int, lives: int, invulnerable: bool, timer: int) {
    function Box(): Rect { Rect(x, SHIP_Y, SHIP_W, SHIP_H) }
  }

  /** The horizontal half of Player.update: move by the held keys, then clamp
      the rectangle into the window. */
  function Steer(x: int, keys: Keys): (nx: int)
    ensures 0 <= nx <= WIDTH - SHIP_W
    ensures var want := x - (if keys.left then SHIP_SPEED else 0) + (if keys.right then SHIP_SPEED else 0);
      (0 <= want <= WIDTH - SHIP_W ==> nx == want) &&
      (want < 0 ==> nx == 0) && (want > WIDTH - SHIP_W ==> nx == WIDTH - SHIP_W)
  {
    var x1 := if keys.left then x - SHIP_SPEED else x;
    var x2 := if keys.right then x1 + SHIP_SPEED else x1;
    var x3 := if x2 < 0 then 0 else x2;
    if x3 + SHIP_W > WIDTH then WIDTH - SHIP_W else x3
  }

  /** Player.update(keys): steer, then count the invulnerability down; the
      flag clears once the countdown is at or below zero. */
  function ShipUpdate(s: Ship, keys: Keys): (r: Ship)
    ensures r.x == Steer(s.x, keys) && 0 <= r.x <= WIDTH - SHIP_W && r.lives == s.lives
    ensures s.invulnerable ==> r.timer == s.timer - 1 && (r.invulnerable <==> r.timer > 0)
    ensures !s.invulnerable ==> r.timer == s.timer && !r.invulnerable
  {
    var x := Steer(s.x, keys);
    if s.invulnerable then
      var t := s.timer - 1;
      Ship(x, s.lives, t > 0, t)
    else
      Ship(x, s.lives, false, s.timer)
  }

  /** Player.update over successive frames. */
  function ShipUpdates(s: Ship, keys: seq<Keys>): Ship
    decreases |keys|
  {
    if keys == [] then s else ShipUpdates(ShipUpdate(s, keys[0]), keys[1..])
  }

  /** Invulnerability granted with countdown T lasts exactly T updates,
      whatever keys are held. */
  lemma {:induction false} InvulnerabilityLasts(s: Ship, keys: seq<Keys>)
    requires s.invulnerable && 1 <= s.timer && |keys| <= s.timer
    ensures ShipUpdates(s, keys).timer == s.timer - |keys|
    ensures ShipUpdates(s, keys).invulnerable <==> |keys| < s.timer
    ensures ShipUpdates(s, keys).lives == s.lives
    decreases |keys|
  {
    if keys != [] {
      var s' := ShipUpdate(s, keys[0]);
      if s'.invulnerable {
        InvulnerabilityLasts(s', keys[1..]);
      } else {
        assert keys[1..] == [];
      }
    }
  }

  /** Clamping is idempotent: with no key held a ship inside the window stays put. */
  lemma SteerIdle(x: int)
    requires 0 <= x <= WIDTH - SHIP_W
    ensures Steer(x, Keys(false, false)) == x
  {
  }

  class Player {
    var x: int
    var lives: int
    var invulnerable: bool
    var invulnerableTimer: int

    function Snapshot(): Ship
      reads this
    {
      Ship(x, lives, invulnerable, invulnerableTimer)
    }

    /** Player(): centred near the bottom, five lives, not invulnerable. */
    constructor ()
      ensures Snapshot() == Ship(SHIP_START_X, MAX_LIVES, false, 0)
    {
      x := SHIP_START_X;
      lives := MAX_LIVES;
      invulnerable := false;
      invulnerableTimer := 0;
    }

    method Update(keys: Keys)
      modifies this
      ensures Snapshot() == ShipUpdate(old(Snapshot()), keys)
    {
      if keys.left {
        x := x - SHIP_SPEED;
      }
      if keys.right {
        x := x + SHIP_SPEED;
      }
      if x < 0 {
        x := 0;
      }
      if x + SHIP_W > WIDTH {
        x := WIDTH - SHIP_W;
      }
      if invulnerable {
        invulnerableTimer := invulnerableTimer - 1;
        if invulnerableTimer <= 0 {
          invulnerable := false;
        }
      }
    }
  }

  /** Bullet(player.rect.centerx, player.rect.top): a shot from the ship's nose. */
  function Shot(s: Ship): (b: Sprite)
    ensures b.rect.CenterX() == s.Box().CenterX() && b.rect.CenterY() == s.Box().y
    ensures 0 <= s.x <= WIDTH - SHIP_W ==> IsBullet(b)
  {
    NewBullet(s.Box().CenterX(), s.Box().y)
  }

  // ------------------------------------------------------- shared main loop

  /** `for powerup in powerup_hits: if player.lives < 5: player.lives += 1`. */
  function GrantLives(lives: int, n: nat): (r: int)
    ensures lives >= MAX_LIVES ==> r == lives
    ensures lives < MAX_LIVES ==> r == if lives + n < MAX_LIVES then lives + n else MAX_LIVES
    decreases n
  {
    if n == 0 then lives
    else GrantLives(if lives < MAX_LIVES then lives + 1 else lives, n - 1)
  }

  /** `powerup_timer += 1; if powerup_timer >= period: spawn; powerup_timer = 0`:
      the new timer and whether a power-up spawns. */
  function AdvanceTimer(t: int, period: int): (r: (int, bool))
  {
    if t + 1 >= period then (0, true) else (t + 1, false)
  }

  /** The spawn timer over k ticks: the final timer and the number of spawns. */
  function TimerRun(t: int, period: int, k: nat): (int, nat)
    decreases k
  {
    if k == 0 then (t, 0)
    else
      var prev := TimerRun(t, period, k - 1);
      var next := AdvanceTimer(prev.0, period);
      (next.0, prev.1 + if next.1 then 1 else 0)
  }

  /** From a timer in [0, period), k ticks with t + k == q * period + m and
      0 <= m < period spawn exactly q power-ups and leave the timer at m: one
      spawn every `period` ticks. */
  lemma {:induction false} SpawnsEveryPeriod(t: int, period: int, k: nat, q: nat, m: int)
    requires 0 <= t < period && 0 <= m < period && t + k == q * period + m
    ensures TimerRun(t, period, k) == (m, q)
    decreases k
  {
    if k > 0 {
      if m > 0 {
        SpawnsEveryPeriod(t, period, k - 1, q, m - 1);
      } else {
        assert q != 0;
        SpawnsEveryPeriod(t, period, k - 1, q - 1, period - 1);
      }
    }
  }

  // --------------------------------------------------- the main loops' state

  /** Everything a main loop reads and writes, except the sprite groups'
      draw-only union `all_sprites`. minishooter/main.py has no pause, and
      its states are never paused. */
  datatype State = State(ship: Ship, bullets: seq<Sprite>, enemies: seq<Sprite>, powerups: seq<Sprite>,
                         score: int, powerupTimer: int, gameOver: bool, paused: bool, running: bool)

  /** The first steps of a tick in both variants: the ship and every group
      update themselves. */
  function Move(s: State, keys: Keys, recycle: seq<Spot>): (r: State)
    requires |recycle| >= |s.enemies|
    ensures |r.enemies| == |s.enemies|
  {
    s.(ship := ShipUpdate(s.ship, keys), bullets := UpdateBullets(s.bullets),
       enemies := UpdateEnemies(s.enemies, recycle), powerups := UpdatePowerUps(s.powerups))
  }

  /** The pickups of both variants: every power-up touching the ship is taken,
      invulnerable or not; each gives a life while fewer than five remain. */
  function Collect(s: State): (r: State)
    ensures forall p :: p in r.powerups <==> p in s.powerups && !p.rect.Collides(s.ship.Box())
    ensures |r.powerups| <= |s.powerups|
    ensures r == s.(powerups := r.powerups, ship := s.ship.(lives := r.ship.lives))
    ensures forall p :: multiset(r.powerups)[p] == if p.rect.Collides(s.ship.Box()) then 0 else multiset(s.powerups)[p]
    ensures var n := |s.powerups| - |r.powerups|;
      r.ship.lives == if s.ship.lives >= MAX_LIVES then s.ship.lives
                      else if s.ship.lives + n < MAX_LIVES then s.ship.lives + n else MAX_LIVES
    // Consequences of the rule above, in the form the tick proofs use them.
    ensures s.ship.lives <= r.ship.lives && (s.ship.lives <= MAX_LIVES ==> r.ship.lives <= MAX_LIVES)
    ensures s.ship.lives < MAX_LIVES && Touching(s.ship.Box(), s.powerups) ==> r.ship.lives >= s.ship.lives + 1
    ensures r.ship.lives != s.ship.lives ==> Touching(s.ship.Box(), s.powerups)
  {
    var c := SpriteCollide(s.ship.Box(), s.powerups);
    forall p ensures multiset(c.kept)[p] == if p.rect.Collides(s.ship.Box()) then 0 else multiset(s.powerups)[p] {
      if p.rect.Collides(s.ship.Box()) {
        assert p !in c.kept;
      } else {
        assert p !in c.hit;
      }
    }
    s.(powerups := c.kept, ship := s.ship.(lives := GrantLives(s.ship.lives, |c.hit|)))
  }
  /** The power-up timer of both variants: it counts ticks; on reaching
      `period` it spawns exactly one power-up and starts again from 0. */
  function SpawnTimer(s: State, spot: Spot, period: int): (r: State)
    requires PowerUpSpotOk(spot)
    ensures 0 <= s.powerupTimer < period ==> 0 <= r.powerupTimer < period
    ensures s.powerupTimer + 1 == period ==>
      r.powerupTimer == 0 && r.powerups == s.powerups + [NewPowerUp(spot)]
    ensures s.powerupTimer + 1 < period ==>
      r.powerupTimer == s.powerupTimer + 1 && r.powerups == s.powerups
    ensures r == s.(powerupTimer := r.powerupTimer, powerups := r.powerups)
  {
    var next := AdvanceTimer(s.powerupTimer, period);
    s.(powerupTimer := next.0, powerups := if next.1 then s.powerups + [NewPowerUp(spot)] else s.powerups)
  }

  /** The moves of a tick that both variants' fatal-hit scenarios share: a
      ship on its last life with an asteroid and a star overlapping it. The
      asteroid falls 2 pixels, the star 3, and the ship stays put. */
  lemma StackedTickMoves()
    ensures Move(State(Ship(500, 1, false, 0), [], [Sprite(Rect(510, 640, 50, 50), 2)],
                       [Sprite(Rect(510, 640, 40, 40), 3)], 0, 0, false, false, true),
                 Keys(false, false), [Spot(0, -50)]) ==
            State(Ship(500, 1, false, 0), [], [Sprite(Rect(510, 642, 50, 50), 2)],
                  [Sprite(Rect(510, 643, 40, 40), 3)], 0, 0, false, false, true)
  {
    assert UpdateEnemies([Sprite(Rect(510, 640, 50, 50), 2)], [Spot(0, -50)]) ==
           [Sprite(Rect(510, 642, 50, 50), 2)];
    assert UpdatePowerUps([Sprite(Rect(510, 640, 40, 40), 3)]) == [Sprite(Rect(510, 643, 40, 40), 3)];
  }

  // ---------------------------------------------------------------- inputs

  datatype Key = Space | LetterR | LetterP | OtherKey

  /** One item of pygame.event.get(). */
  datatype Event = Quit | KeyDown(key: Key) | OtherEvent

  /** One iteration of `while running`: its events, the keys held, the draws
      of its tick, and the five draws a restart would use. */
  datatype Frame = Frame(events: seq<Event>, keys: Keys, draws: Draws, restart: seq<EnemyDraw>)
}
