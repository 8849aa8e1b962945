/** main.py: the variant with a pause key. A shot asteroid is always replaced
    one-for-one, an asteroid that hits the ship survives, invulnerability lasts
    two seconds, a power-up appears every ten seconds, and game over is tested
    once, at the end of the tick. */
module Shooter {
  import opened Sprites

  const INVULNERABLE_TICKS := FPS * 2
  const POWERUP_PERIOD := FPS * 10

  /** The alpha Player.update gives the ship image, as a function of the ship
      after the update: 128 on the dim half of each ten-tick blink while
      invulnerable, fully opaque otherwise. */
  function Alpha(s: Ship): (a: int)
    ensures a == 128 || a == 255
    ensures !s.invulnerable ==> a == 255
  {
    if s.invulnerable && (s.timer / 5) % 2 == 0 then 128 else 255
  }

  /** The blink: while invulnerable the ship is dim on the first five ticks of
      every ten and opaque on the other five, so the alpha holds steady for five
      ticks and then flips. */
  lemma FlickerBlinks(s: Ship)
    requires s.invulnerable
    ensures Alpha(s) == 128 <==> s.timer % 10 < 5
    ensures s.timer % 5 != 4 ==> Alpha(s) == Alpha(s.(timer := s.timer + 1))
    ensures Alpha(s) != Alpha(s.(timer := s.timer + 5))
    ensures Alpha(s) == Alpha(s.(timer := s.timer + 10))
  {
    var q, m := s.timer / 10, s.timer % 10;
    assert s.timer == 10 * q + m && 0 <= m < 10;
    assert s.timer / 5 == 2 * q + m / 5;
    assert (s.timer + 5) / 5 == s.timer / 5 + 1;
    assert (s.timer + 10) / 5 == s.timer / 5 + 2;
  }

  // ------------------------------------------------------------- invariant

  ghost predicate ShipOk(s: Ship) {
    0 <= s.x <= WIDTH - SHIP_W && 0 <= s.lives <= MAX_LIVES &&
    0 <= s.timer <= INVULNERABLE_TICKS && (s.invulnerable ==> 1 <= s.timer)
  }

  ghost predicate SpritesOk(s: State) {
    (forall b :: b in s.bullets ==> IsBullet(b)) &&
    (forall e :: e in s.enemies ==> IsEnemy(e)) &&
    (forall p :: p in s.powerups ==> IsPowerUp(p)) &&
    |s.enemies| == ENEMY_COUNT
  }

  /** What holds between frames. The game is over exactly when no life is left;
      the fatal hit has then just made the ship invulnerable for 120 ticks. */
  ghost predicate Inv(s: State) {
    ShipOk(s.ship) && SpritesOk(s) &&
    0 <= s.score && s.score % 10 == 0 &&
    0 <= s.powerupTimer < POWERUP_PERIOD &&
    (s.gameOver <==> s.ship.lives == 0) &&
    (s.gameOver ==> s.ship.invulnerable && s.ship.timer == INVULNERABLE_TICKS)
  }

  /** What holds between the steps of a tick: lives may already be 0, but the
      game-over flag is only raised by the last step. */
  ghost predicate MidTick(s: State) {
    ShipOk(s.ship) && SpritesOk(s) &&
    0 <= s.score && s.score % 10 == 0 &&
    0 <= s.powerupTimer < POWERUP_PERIOD && !s.gameOver &&
    (s.ship.lives == 0 ==> s.ship.invulnerable && s.ship.timer == INVULNERABLE_TICKS)
  }

  /** main.py:120-134: the ship, five asteroids, nothing else. */
  function Initial(spawns: seq<EnemyDraw>): (s: State)
    requires |spawns| == ENEMY_COUNT && EnemyDrawsOk(spawns)
    ensures Inv(s) && s.running && !s.paused && !s.gameOver
  {
    State(Ship(SHIP_START_X, MAX_LIVES, false, 0), [], Spawned(spawns), [], 0, 0, false, false, true)
  }

  // ---------------------------------------------------------------- events

  /** main.py:153-166: R after game over rebuilds the world, but leaves the
      invulnerability countdown, the power-up timer and the pause flag alone. */
  function Restarted(s: State, spawns: seq<EnemyDraw>): (r: State)
    requires |spawns| == ENEMY_COUNT && EnemyDrawsOk(spawns)
    ensures r.score == 0 && r.ship.lives == MAX_LIVES && r.ship.x == SHIP_START_X && !r.ship.invulnerable
    ensures r.bullets == [] && r.powerups == [] && r.enemies == Spawned(spawns) && !r.gameOver
    ensures r.ship.timer == s.ship.timer && r.powerupTimer == s.powerupTimer
    ensures r.paused == s.paused && r.running == s.running
    ensures Inv(s) ==> Inv(r)
  {
    s.(ship := s.ship.(x := SHIP_START_X, lives := MAX_LIVES, invulnerable := false),
       bullets := [], enemies := Spawned(spawns), powerups := [], score := 0, gameOver := false)
  }

  /** main.py:141-170: one event. */
  function OnEvent(s: State, e: Event, spawns: seq<EnemyDraw>): (r: State)
    requires |spawns| == ENEMY_COUNT && EnemyDrawsOk(spawns)
    ensures Inv(s) ==> Inv(r)
    ensures |r.enemies| == |s.enemies| || |r.enemies| == ENEMY_COUNT
    ensures e == KeyDown(LetterP) ==> r == s.(paused := !s.paused)
    ensures e == KeyDown(Space) && (s.gameOver || s.paused) ==> r == s
    ensures e == KeyDown(Space) && !s.gameOver && !s.paused ==>
      r == s.(bullets := s.bullets + [Shot(s.ship)])
    ensures e == KeyDown(LetterR) && !s.gameOver ==> r == s
    ensures e == KeyDown(LetterR) && s.gameOver ==> r == Restarted(s, spawns)
    ensures e == Quit ==> r == s.(running := false)
    ensures e == OtherEvent || e == KeyDown(OtherKey) ==> r == s
    ensures r.running <==> s.running && e != Quit
  {
    match e
    case Quit => s.(running := false)
    case KeyDown(k) =>
      if k == Space && !s.gameOver && !s.paused then s.(bullets := s.bullets + [Shot(s.ship)])
      else if k == LetterR && s.gameOver then Restarted(s, spawns)
      else if k == LetterP then s.(paused := !s.paused)
      else s
    case OtherEvent => s
  }

  /** main.py:140-170: every event of the frame, in order. */
  function AfterEvents(s: State, events: seq<Event>, spawns: seq<EnemyDraw>): (r: State)
    requires |spawns| == ENEMY_COUNT && EnemyDrawsOk(spawns)
    ensures Inv(s) ==> Inv(r)
    ensures |r.enemies| == |s.enemies| || |r.enemies| == ENEMY_COUNT
    ensures r.running <==> s.running && Quit !in events
    decreases |events|
  {
    if events == [] then s
    else
      assert events == [events[0]] + events[1..];
      AfterEvents(OnEvent(s, events[0], spawns), events[1..], spawns)
  }

  /** Each SPACE pressed while the game runs fires exactly one bullet from the
      ship's nose, and changes nothing else. */
  lemma {:induction false} OneBulletPerSpace(s: State, events: seq<Event>, spawns: seq<EnemyDraw>)
    requires |spawns| == ENEMY_COUNT && EnemyDrawsOk(spawns)
    requires !s.gameOver && !s.paused
    requires forall i :: 0 <= i < |events| ==> events[i] == KeyDown(Space)
    ensures AfterEvents(s, events, spawns) ==
            s.(bullets := s.bullets + seq(|events|, _ => Shot(s.ship)))
    decreases |events|
  {
    if events != [] {
      var s1 := s.(bullets := s.bullets + [Shot(s.ship)]);
      assert OnEvent(s, events[0], spawns) == s1;
      OneBulletPerSpace(s1, events[1..], spawns);
      assert s1.bullets + seq(|events| - 1, _ => Shot(s.ship)) ==
             s.bullets + seq(|events|, _ => Shot(s.ship));
    }
  }

  // ------------------------------------------------------------------ tick

  /** main.py:180-187: every asteroid a bullet hits scores 10 and is replaced
      by a new one, so the asteroid count never changes; each kill uses up at
      least one bullet. */
  function Shoot(s: State, spawns: seq<EnemyDraw>): (r: State)
    requires |spawns| >= |s.enemies| && EnemyDrawsOk(spawns)
    ensures |r.enemies| == |s.enemies|
    ensures r.score == s.score + 10 * (|s.enemies| - |GroupCollide(s.enemies, s.bullets).survivors|)
    ensures |r.bullets| + (r.score - s.score) / 10 <= |s.bullets|
    ensures r.bullets == GroupCollide(s.enemies, s.bullets).bullets
    ensures r.ship == s.ship && r.powerups == s.powerups && r.powerupTimer == s.powerupTimer
    ensures r.gameOver == s.gameOver && r.paused == s.paused && r.running == s.running
  {
    var c := GroupCollide(s.enemies, s.bullets);
    s.(bullets := c.bullets, enemies := c.survivors + Spawned(spawns[..|c.killed|]),
       score := s.score + 10 * |c.killed|)
  }

  /** The asteroids after the volley: the killed ones are exchanged for the
      first |c.killed| new ones from the draws, and an asteroid no bullet touches
      stays in play. */
  lemma VolleyEnemies(s: State, spawns: seq<EnemyDraw>)
    requires |spawns| >= |s.enemies| && EnemyDrawsOk(spawns)
    ensures var c := GroupCollide(s.enemies, s.bullets); var r := Shoot(s, spawns);
      multiset(r.enemies) + multiset(c.killed) == multiset(s.enemies) + multiset(Spawned(spawns[..|c.killed|]))
    ensures var r := Shoot(s, spawns);
      forall e :: e in s.enemies && !(exists b :: b in s.bullets && b.rect.Collides(e.rect)) ==> e in r.enemies
  {
    var c := GroupCollide(s.enemies, s.bullets);
    assert Shoot(s, spawns).enemies == c.survivors + Spawned(spawns[..|c.killed|]);
    GroupCollideParts(s.enemies, s.bullets);
    GroupCollideSpares(s.enemies, s.bullets);
  }

  /** main.py:189-195: unless invulnerable, touching any number of asteroids
      costs exactly one life and starts 120 ticks of invulnerability; no
      asteroid is removed. */
  function Ram(s: State): (r: State)
    ensures var hit := !s.ship.invulnerable && Touching(s.ship.Box(), s.enemies);
      r == if hit then s.(ship := s.ship.(lives := s.ship.lives - 1, invulnerable := true,
                                          timer := INVULNERABLE_TICKS))
           else s
  {
    if !s.ship.invulnerable && SpriteCollide(s.ship.Box(), s.enemies).hit != [] then
      s.(ship := s.ship.(lives := s.ship.lives - 1, invulnerable := true, timer := INVULNERABLE_TICKS))
    else s
  }

  /** main.py:212-214: the game ends once no life is left, and nothing else
      changes. */
  function CheckGameOver(s: State): (r: State)
    ensures r.gameOver <==> s.gameOver || s.ship.lives <= 0
    ensures r == s.(gameOver := r.gameOver)
  {
    if s.ship.lives <= 0 then s.(gameOver := true) else s
  }

  /** main.py:180-214: the rest of a tick once every sprite has moved. The
      asteroid count and the pause and quit flags are kept, the score never
      drops, and the game is over afterwards exactly when it was already or no
      life is left. */
  function Resolve(m: State, d: Draws): (r: State)
    requires |d.spawns| >= |m.enemies| && DrawsOk(d)
    ensures |r.enemies| == |m.enemies| && r.score >= m.score
    ensures r.paused == m.paused && r.running == m.running
    ensures r.gameOver <==> m.gameOver || r.ship.lives <= 0
  {
    var shot := Shoot(m, d.spawns);
    assert |GroupCollide(m.enemies, m.bullets).survivors| <= |m.enemies|;
    CheckGameOver(SpawnTimer(Collect(Ram(shot)), d.powerup, POWERUP_PERIOD))
  }

  /** main.py:174-214: one tick of the running game: every sprite moves, then
      the collisions, pick-ups, spawns and the game-over test follow. */
  function TickSpec(s: State, keys: Keys, d: Draws): (r: State)
    requires |d.recycle| >= |s.enemies| && |d.spawns| >= |s.enemies| && DrawsOk(d)
    ensures |r.enemies| == |s.enemies| && r.score >= s.score
    ensures r.paused == s.paused && r.running == s.running
    ensures r.gameOver <==> s.gameOver || r.ship.lives <= 0
  {
    Resolve(Move(s, keys, d.recycle), d)
  }

  lemma MoveKeeps(s: State, keys: Keys, recycle: seq<Spot>)
    requires Inv(s) && !s.gameOver
    requires |recycle| >= |s.enemies| && forall p :: p in recycle ==> EnemySpotOk(p)
    ensures MidTick(Move(s, keys, recycle))
  {
    var r := Move(s, keys, recycle);
    forall b | b in r.bullets ensures IsBullet(b) {
      var o :| o in s.bullets && b == Fly(o);
      assert IsBullet(o);
    }
    forall p | p in r.powerups ensures IsPowerUp(p) {
      var o :| o in s.powerups && p == Fly(o);
      assert IsPowerUp(o);
    }
  }

  lemma ShootKeeps(s: State, spawns: seq<EnemyDraw>)
    requires MidTick(s) && |spawns| >= |s.enemies| && EnemyDrawsOk(spawns)
    ensures MidTick(Shoot(s, spawns))
  {
    ShootSprites(s, spawns);
  }

  lemma ShootSprites(s: State, spawns: seq<EnemyDraw>)
    requires SpritesOk(s) && |spawns| >= |s.enemies| && EnemyDrawsOk(spawns)
    ensures SpritesOk(Shoot(s, spawns))
  {
    var c := GroupCollide(s.enemies, s.bullets);
    var added := Spawned(spawns[..|c.killed|]);
    assert Shoot(s, spawns).enemies == c.survivors + added;
    assert forall e :: e in c.survivors + added ==> e in c.survivors || e in added;
  }

  lemma RamKeeps(s: State)
    requires MidTick(s) && 1 <= s.ship.lives
    ensures MidTick(Ram(s))
  {
  }

  lemma CollectKeeps(s: State)
    requires MidTick(s)
    ensures MidTick(Collect(s))
  {
    var r := Collect(s);
    assert forall p :: p in r.powerups ==> p in s.powerups;
  }

  lemma SpawnKeeps(s: State, spot: Spot)
    requires MidTick(s) && PowerUpSpotOk(spot)
    ensures MidTick(SpawnTimer(s, spot, POWERUP_PERIOD))
  {
    var r := SpawnTimer(s, spot, POWERUP_PERIOD);
    assert forall p :: p in r.powerups ==> p in s.powerups || p == NewPowerUp(spot);
  }

  /** The tick keeps the between-frames invariant: the ship stays in the window,
      lives stay within [0, 5], five asteroids stay in play, the score stays a
      multiple of 10, and the game ends exactly when the lives run out. */
  lemma TickKeepsInv(s: State, keys: Keys, d: Draws)
    requires Inv(s) && !s.gameOver
    requires |d.recycle| >= |s.enemies| && |d.spawns| >= |s.enemies| && DrawsOk(d)
    ensures Inv(TickSpec(s, keys, d))
    ensures TickSpec(s, keys, d).score >= s.score
  {
    var s1 := Move(s, keys, d.recycle);
    MoveKeeps(s, keys, d.recycle);
    var s2 := Shoot(s1, d.spawns);
    ShootKeeps(s1, d.spawns);
    var s3 := Ram(s2);
    RamKeeps(s2);
    var s4 := Collect(s3);
    CollectKeeps(s3);
    var s5 := SpawnTimer(s4, d.powerup, POWERUP_PERIOD);
    SpawnKeeps(s4, d.powerup);
    assert TickSpec(s, keys, d) == CheckGameOver(s5);
  }

  /** The lives are tested only at the end of the tick, after the pick-ups:
      the tick ends the game exactly when the asteroid hit took the last life
      and no power-up touches the moved ship, and a power-up touching it in
      the same tick always saves the game. */
  lemma LastLifeRule(s: State, keys: Keys, d: Draws)
    requires Inv(s) && !s.gameOver
    requires |d.recycle| >= |s.enemies| && |d.spawns| >= |s.enemies| && DrawsOk(d)
    ensures var moved := Move(s, keys, d.recycle);
      var rammed := Ram(Shoot(moved, d.spawns));
      var r := TickSpec(s, keys, d);
      (r.gameOver <==> rammed.ship.lives == 0 && !Touching(moved.ship.Box(), moved.powerups)) &&
      (rammed.ship.lives == 0 && Touching(moved.ship.Box(), moved.powerups) ==> r.ship.lives >= 1)
  {
    MoveKeeps(s, keys, d.recycle);
    LastLifeResolve(Move(s, keys, d.recycle), d);
  }

  /** The same rule for the part of the tick after the moves. */
  lemma LastLifeResolve(m: State, d: Draws)
    requires MidTick(m) && 1 <= m.ship.lives && |d.spawns| >= |m.enemies| && DrawsOk(d)
    ensures var rammed := Ram(Shoot(m, d.spawns));
      var r := Resolve(m, d);
      (r.gameOver <==> rammed.ship.lives == 0 && !Touching(m.ship.Box(), m.powerups)) &&
      (rammed.ship.lives == 0 && Touching(m.ship.Box(), m.powerups) ==> r.ship.lives >= 1)
  {
    var shot := Shoot(m, d.spawns);
    ShootKeeps(m, d.spawns);
    var rammed := Ram(shot);
    RamKeeps(shot);
    assert rammed.ship.Box() == m.ship.Box() && rammed.powerups == m.powerups;
    assert Resolve(m, d).ship == Collect(rammed).ship;
  }

  /** A concrete tick of that rule: one life left, an asteroid and a star both
      overlapping the ship; the asteroid takes the life, the star gives it back. */
  lemma PickupSavesFatalTick()
    ensures var s := State(Ship(500, 1, false, 0), [], [Sprite(Rect(510, 640, 50, 50), 2)],
                           [Sprite(Rect(510, 640, 40, 40), 3)], 0, 0, false, false, true);
            var r := TickSpec(s, Keys(false, false), Draws([Spot(0, -50)], [EnemyDraw(0, -50, 2)], Spot(0, -50)));
            !r.gameOver && r.ship.lives == 1 && r.ship.invulnerable && |r.powerups| == 0
  {
    StackedTickMoves();
    FatalTickResolves();
  }

  /** The rest of that tick: the asteroid takes the last life, the star gives
      it back before the lives are tested. */
  lemma FatalTickResolves()
    ensures var r := Resolve(State(Ship(500, 1, false, 0), [], [Sprite(Rect(510, 642, 50, 50), 2)],
                                   [Sprite(Rect(510, 643, 40, 40), 3)], 0, 0, false, false, true),
                             Draws([Spot(0, -50)], [EnemyDraw(0, -50, 2)], Spot(0, -50)));
            !r.gameOver && r.ship.lives == 1 && r.ship.invulnerable && |r.powerups| == 0
  {
    var m := State(Ship(500, 1, false, 0), [], [Sprite(Rect(510, 642, 50, 50), 2)],
                   [Sprite(Rect(510, 643, 40, 40), 3)], 0, 0, false, false, true);
    var s2 := Shoot(m, [EnemyDraw(0, -50, 2)]);
    assert s2.enemies == m.enemies;
    var s3 := Ram(s2);
    assert s3.ship.lives == 0;
    var s4 := Collect(s3);
    assert s4.ship.lives == 1;
  }

  // ----------------------------------------------------------------- frame

  predicate FrameOk(f: Frame) {
    DrawsOk(f.draws) && |f.draws.recycle| >= ENEMY_COUNT && |f.draws.spawns| >= ENEMY_COUNT &&
    |f.restart| == ENEMY_COUNT && EnemyDrawsOk(f.restart)
  }

  /** main.py:137-214: one iteration of `while running`: all events first, then
      a tick unless the game is paused or over. */
  function FrameSpec(s: State, f: Frame): (r: State)
    requires FrameOk(f) && |s.enemies| <= ENEMY_COUNT
    ensures |r.enemies| <= ENEMY_COUNT
    ensures r.running <==> s.running && Quit !in f.events
  {
    var s1 := AfterEvents(s, f.events, f.restart);
    if !s1.paused && !s1.gameOver then TickSpec(s1, f.keys, f.draws) else s1
  }

  lemma FrameKeepsInv(s: State, f: Frame)
    requires Inv(s) && FrameOk(f)
    ensures Inv(FrameSpec(s, f))
  {
    var s1 := AfterEvents(s, f.events, f.restart);
    if !s1.paused && !s1.gameOver {
      TickKeepsInv(s1, f.keys, f.draws);
    }
  }

  /** While paused or over, a frame without P or R moves nothing, spawns
      nothing and fires nothing: at most the quit flag changes. */
  lemma {:induction false} FrozenFrame(s: State, f: Frame)
    requires FrameOk(f) && |s.enemies| <= ENEMY_COUNT && (s.paused || s.gameOver)
    requires forall i :: 0 <= i < |f.events| ==>
      f.events[i] != KeyDown(LetterP) && f.events[i] != KeyDown(LetterR)
    ensures FrameSpec(s, f) == s.(running := FrameSpec(s, f).running)
  {
    FrozenEvents(s, f.events, f.restart);
  }

  lemma {:induction false} FrozenEvents(s: State, events: seq<Event>, spawns: seq<EnemyDraw>)
    requires |spawns| == ENEMY_COUNT && EnemyDrawsOk(spawns) && (s.paused || s.gameOver)
    requires forall i :: 0 <= i < |events| ==>
      events[i] != KeyDown(LetterP) && events[i] != KeyDown(LetterR)
    ensures AfterEvents(s, events, spawns) == s.(running := AfterEvents(s, events, spawns).running)
    decreases |events|
  {
    if events != [] {
      var s1 := OnEvent(s, events[0], spawns);
      assert s1 == s.(running := s1.running);
      FrozenEvents(s1, events[1..], spawns);
    }
  }

  /** `while running`: frames are played until one of them quits, so the game
      still runs afterwards exactly when it ran before and no frame quit. */
  function Play(s: State, frames: seq<Frame>): (r: State)
    requires forall f :: f in frames ==> FrameOk(f)
    requires |s.enemies| <= ENEMY_COUNT
    ensures |r.enemies| <= ENEMY_COUNT
    ensures r.running <==> s.running && forall f :: f in frames ==> Quit !in f.events
    decreases |frames|
  {
    if frames == [] || !s.running then s
    else
      assert frames == [frames[0]] + frames[1..];
      Play(FrameSpec(s, frames[0]), frames[1..])
  }

  lemma {:induction false} PlayKeepsInv(s: State, frames: seq<Frame>)
    requires Inv(s) && forall f :: f in frames ==> FrameOk(f)
    ensures Inv(Play(s, frames))
    decreases |frames|
  {
    if frames != [] && s.running {
      FrameKeepsInv(s, frames[0]);
      PlayKeepsInv(FrameSpec(s, frames[0]), frames[1..]);
    }
  }

  // ----------------------------------------------------------------- world

  /** The module-level state of main.py: the player, the sprite groups and
      the loop's variables. */
  class World {
    const player: Player
    var bullets: seq<Sprite>
    var enemies: seq<Sprite>
    var powerups: seq<Sprite>
    var score: int
    var powerupTimer: int
    var gameOver: bool
    var paused: bool
    var running: bool

    function Snapshot(): State
      reads this, player
    {
      State(player.Snapshot(), bullets, enemies, powerups, score, powerupTimer, gameOver, paused, running)
    }

    ghost predicate Valid()
      reads this, player
    {
      Inv(Snapshot())
    }

    /** main.py:114-134 */
    constructor (spawns: seq<EnemyDraw>)
      requires |spawns| == ENEMY_COUNT && EnemyDrawsOk(spawns)
      ensures Snapshot() == Initial(spawns) && Valid()
    {
      player := new Player();
      var es := SpawnEnemies(spawns);
      bullets, enemies, powerups := [], es, [];
      score, powerupTimer := 0, 0;
      gameOver, paused, running := false, false, true;
    }

    /** main.py:152-166 */
    method Restart(spawns: seq<EnemyDraw>)
      requires |spawns| == ENEMY_COUNT && EnemyDrawsOk(spawns)
      modifies this, player
      ensures Snapshot() == Restarted(old(Snapshot()), spawns)
    {
      gameOver := false;
      score := 0;
      player.lives := MAX_LIVES;
      player.x := SHIP_START_X;
      player.invulnerable := false;
      bullets, powerups := [], [];
      enemies := SpawnEnemies(spawns);
    }

    /** main.py:141-170 */
    method HandleEvent(e: Event, spawns: seq<EnemyDraw>)
      requires |spawns| == ENEMY_COUNT && EnemyDrawsOk(spawns)
      modifies this, player
      ensures Snapshot() == OnEvent(old(Snapshot()), e, spawns)
    {
      match e {
        case Quit =>
          running := false;
        case KeyDown(k) =>
          if k == Space && !gameOver && !paused {
            bullets := bullets + [NewBullet(player.x + SHIP_W / 2, SHIP_Y)];
          } else if k == LetterR && gameOver {
            Restart(spawns);
          } else if k == LetterP {
            paused := !paused;
          }
        case OtherEvent =>
      }
    }

    /** main.py:140-170 */
    method HandleEvents(events: seq<Event>, spawns: seq<EnemyDraw>)
      requires |spawns| == ENEMY_COUNT && EnemyDrawsOk(spawns)
      modifies this, player
      ensures Snapshot() == AfterEvents(old(Snapshot()), events, spawns)
    {
      var i := 0;
      while i < |events|
        invariant 0 <= i <= |events|
        invariant AfterEvents(Snapshot(), events[i..], spawns) == AfterEvents(old(Snapshot()), events, spawns)
      {
        assert events[i..][1..] == events[i + 1..];
        HandleEvent(events[i], spawns);
        i := i + 1;
      }
    }

    /** main.py:174-178 */
    method MoveAll(keys: Keys, recycle: seq<Spot>)
      requires |recycle| >= |enemies|
      modifies this, player
      ensures Snapshot() == Move(old(Snapshot()), keys, recycle)
    {
      ghost var s0 := Snapshot();
      player.Update(keys);
      bullets := UpdateBullets(bullets);
      enemies := UpdateEnemies(enemies, recycle);
      powerups := UpdatePowerUps(powerups);
      assert Snapshot() == s0.(ship := player.Snapshot(), bullets := bullets, enemies := enemies, powerups := powerups);
    }

    /** main.py:180-187 */
    method ShootEnemies(spawns: seq<EnemyDraw>)
      requires |spawns| >= |enemies| && EnemyDrawsOk(spawns)
      modifies this
      ensures Snapshot() == Shoot(old(Snapshot()), spawns)
    {
      var hits := GroupCollide(enemies, bullets);
      enemies, bullets := hits.survivors, hits.bullets;
      ScoreAndReplace(|hits.killed|, spawns);
    }

    /** main.py:182-187: `for hit in hits`: 10 points and a new asteroid each. */
    method ScoreAndReplace(kills: nat, spawns: seq<EnemyDraw>)
      requires kills <= |spawns| && EnemyDrawsOk(spawns)
      modifies this
      ensures Snapshot() == old(Snapshot()).(enemies := old(enemies) + Spawned(spawns[..kills]),
                                             score := old(score) + 10 * kills)
    {
      var i := 0;
      while i < kills
        invariant 0 <= i <= kills
        invariant enemies == old(enemies) + Spawned(spawns[..i])
        invariant score == old(score) + 10 * i
        invariant bullets == old(bullets) && powerups == old(powerups) && powerupTimer == old(powerupTimer)
        invariant gameOver == old(gameOver) && paused == old(paused) && running == old(running)
      {
        score := score + 10;
        assert spawns[..i + 1] == spawns[..i] + [spawns[i]];
        enemies := enemies + [NewEnemy(spawns[i])];
        i := i + 1;
      }
    }

    /** main.py:189-195 */
    method RamPlayer()
      modifies player
      ensures Snapshot() == Ram(old(Snapshot()))
    {
      if !player.invulnerable {
        var hits := SpriteCollide(player.Snapshot().Box(), enemies).hit;
        if hits != [] {
          player.lives := player.lives - 1;
          player.invulnerable := true;
          player.invulnerableTimer := INVULNERABLE_TICKS;
        }
      }
    }

    /** main.py:198-202 */
    method CollectPowerUps()
      modifies this, player
      ensures Snapshot() == Collect(old(Snapshot()))
    {
      var hits := SpriteCollide(player.Snapshot().Box(), powerups).hit;
      powerups := SpriteCollide(player.Snapshot().Box(), powerups).kept;
      var i := 0;
      while i < |hits|
        invariant 0 <= i <= |hits|
        invariant GrantLives(player.lives, |hits| - i) == GrantLives(old(player.lives), |hits|)
        invariant player.x == old(player.x) && player.invulnerable == old(player.invulnerable)
        invariant player.invulnerableTimer == old(player.invulnerableTimer)
        invariant bullets == old(bullets) && enemies == old(enemies) && score == old(score)
        invariant powerups == SpriteCollide(old(player.Snapshot()).Box(), old(powerups)).kept
        invariant powerupTimer == old(powerupTimer)
        invariant gameOver == old(gameOver) && paused == old(paused) && running == old(running)
      {
        if player.lives < MAX_LIVES {
          player.lives := player.lives + 1;
        }
        i := i + 1;
      }
    }

    /** main.py:204-210 */
    method TickPowerUpTimer(spot: Spot)
      requires PowerUpSpotOk(spot)
      modifies this
      ensures Snapshot() == SpawnTimer(old(Snapshot()), spot, POWERUP_PERIOD)
    {
      powerupTimer := powerupTimer + 1;
      if powerupTimer >= POWERUP_PERIOD {
        powerups := powerups + [NewPowerUp(spot)];
        powerupTimer := 0;
      }
    }

    /** main.py:174-214 */
    method Tick(keys: Keys, d: Draws)
      requires |d.recycle| >= |enemies| && |d.spawns| >= |enemies| && DrawsOk(d)
      modifies this, player
      ensures Snapshot() == TickSpec(old(Snapshot()), keys, d)
    {
      MoveAll(keys, d.recycle);
      ResolveTick(d);
    }

    /** main.py:180-214 */
    method ResolveTick(d: Draws)
      requires |d.spawns| >= |enemies| && DrawsOk(d)
      modifies this, player
      ensures Snapshot() == Resolve(old(Snapshot()), d)
    {
      ShootEnemies(d.spawns);
      RamPlayer();
      CollectPowerUps();
      TickPowerUpTimer(d.powerup);
      if player.lives <= 0 {
        gameOver := true;
      }
    }

    /** main.py:137-214 */
    method RunFrame(f: Frame)
      requires FrameOk(f) && |enemies| <= ENEMY_COUNT
      modifies this, player
      ensures Snapshot() == FrameSpec(old(Snapshot()), f)
    {
      HandleEvents(f.events, f.restart);
      if !paused && !gameOver {
        Tick(f.keys, f.draws);
      }
    }

    /** main.py:136-214: the main loop, over the frames supplied. */
    method Run(frames: seq<Frame>) returns (played: nat)
      requires Valid() && forall f :: f in frames ==> FrameOk(f)
      modifies this, player
      ensures Valid() && Snapshot() == Play(old(Snapshot()), frames)
      ensures played <= |frames| && (played < |frames| ==> !running)
    {
      played := 0;
      while running && played < |frames|
        invariant played <= |frames| && Valid()
        invariant Play(Snapshot(), frames[played..]) == Play(old(Snapshot()), frames)
      {
        ghost var before := Snapshot();
        assert frames[played..][1..] == frames[played + 1..];
        assert frames[played] in frames && |enemies| <= ENEMY_COUNT;
        assert Play(before, frames[played..]) == Play(FrameSpec(before, frames[played]), frames[played + 1..]);
        RunFrame(frames[played]);
        FrameKeepsInv(before, frames[played]);
        played := played + 1;
      }
    }
  }
}
