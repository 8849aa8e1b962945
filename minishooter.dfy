/** minishooter/main.py: the variant without a pause key. A shot asteroid is
    replaced only while fewer than five remain, an asteroid that hits the ship
    is destroyed, invulnerability lasts one second, a power-up appears every
    five seconds, and the game ends on the hit that takes the last life. */
module MiniShooter {
  import opened Sprites

  const INVULNERABLE_TICKS := 60
  const POWERUP_PERIOD := FPS * 5

  /** The alpha Player.update gives the ship image, as a function of the ship
      after the update: 128 on the first half of each ten-tick blink while
      invulnerable, fully opaque otherwise. */
  function Alpha(s: Ship): (a: int)
    ensures a == 128 || a == 255
    ensures !s.invulnerable ==> a == 255
  {
    if s.invulnerable && s.timer % 10 < 5 then 128 else 255
  }

  // ------------------------------------------------------------- invariant

  ghost predicate ShipOk(s: Ship) {
    0 <= s.x <= WIDTH - SHIP_W && 0 <= s.lives <= MAX_LIVES &&
    0 <= s.timer <= INVULNERABLE_TICKS && (s.invulnerable <==> s.timer > 0)
  }

  ghost predicate SpritesOk(s: State) {
    (forall b :: b in s.bullets ==> IsBullet(b)) &&
    (forall e :: e in s.enemies ==> IsEnemy(e)) &&
    (forall p :: p in s.powerups ==> IsPowerUp(p)) &&
    |s.enemies| <= ENEMY_COUNT
  }

  /** What holds between frames, and between the steps of a tick as well. A
      running game has five asteroids and a life left; the fatal hit leaves
      the ship vulnerable and may leave fewer asteroids. A pick-up after the
      fatal hit can give a life back without ending the game over, so the
      lives alone do not tell whether the game is over. */
  ghost predicate Inv(s: State) {
    ShipOk(s.ship) && SpritesOk(s) &&
    0 <= s.score && s.score % 10 == 0 &&
    0 <= s.powerupTimer < POWERUP_PERIOD && !s.paused &&
    (!s.gameOver ==> |s.enemies| == ENEMY_COUNT && 1 <= s.ship.lives) &&
    (s.gameOver ==> !s.ship.invulnerable)
  }

  /** minishooter/main.py:109-124: the ship, five asteroids, nothing else. */
  function Initial(spawns: seq<EnemyDraw>): (s: State)
    requires |spawns| == ENEMY_COUNT && EnemyDrawsOk(spawns)
    ensures Inv(s) && s.running && !s.gameOver
  {
    State(Ship(SHIP_START_X, MAX_LIVES, false, 0), [], Spawned(spawns), [], 0, 0, false, false, true)
  }

  // ---------------------------------------------------------------- events

  /** minishooter/main.py:140-154: R after game over rebuilds the world, but
      leaves the invulnerability countdown and the power-up timer alone. */
  function Restarted(s: State, spawns: seq<EnemyDraw>): (r: State)
    requires |spawns| == ENEMY_COUNT && EnemyDrawsOk(spawns)
    ensures r.score == 0 && r.ship.lives == MAX_LIVES && r.ship.x == SHIP_START_X && !r.ship.invulnerable
    ensures r.bullets == [] && r.powerups == [] && r.enemies == Spawned(spawns) && !r.gameOver
    ensures r.ship.timer == s.ship.timer && r.powerupTimer == s.powerupTimer && r.running == s.running
    ensures Inv(s) && s.gameOver ==> Inv(r)
  {
    s.(ship := s.ship.(x := SHIP_START_X, lives := MAX_LIVES, invulnerable := false),
       bullets := [], enemies := Spawned(spawns), powerups := [], score := 0, gameOver := false)
  }

  /** minishooter/main.py:133-154: one event. */
  function OnEvent(s: State, e: Event, spawns: seq<EnemyDraw>): (r: State)
    requires |spawns| == ENEMY_COUNT && EnemyDrawsOk(spawns)
    ensures Inv(s) ==> Inv(r)
    ensures |r.enemies| == |s.enemies| || |r.enemies| == ENEMY_COUNT
    ensures e == KeyDown(LetterP) ==> r == s
    ensures e == KeyDown(Space) && s.gameOver ==> r == s
    ensures e == KeyDown(Space) && !s.gameOver ==> r == s.(bullets := s.bullets + [Shot(s.ship)])
    ensures e == KeyDown(LetterR) && !s.gameOver ==> r == s
    ensures e == KeyDown(LetterR) && s.gameOver ==> r == Restarted(s, spawns)
    ensures e == Quit ==> r == s.(running := false)
    ensures e == OtherEvent || e == KeyDown(OtherKey) ==> r == s
    ensures r.running <==> s.running && e != Quit
  {
    match e
    case Quit => s.(running := false)
    case KeyDown(k) =>
      if k == Space && !s.gameOver then s.(bullets := s.bullets + [Shot(s.ship)])
      else if k == LetterR && s.gameOver then Restarted(s, spawns)
      else s
    case OtherEvent => s
  }

  /** minishooter/main.py:132-154: every event of the frame, in order. */
  function AfterEvents(s: State, events: seq<Event>, spawns: seq<EnemyDraw>): (r: State)
    requires |spawns| == ENEMY_COUNT && EnemyDrawsOk(spawns)
    ensures Inv(s) ==> Inv(r)
    ensures |r.enemies| == |s.enemies| || |r.enemies| == ENEMY_COUNT
    ensures r.running <==> s.running && Quit !in events
    decreases |events|
  {
    if events == [] then s
    else
      assert events == [events[0]] + events[1..];
      AfterEvents(OnEvent(s, events[0], spawns), events[1..], spawns)
  }

  /** Each SPACE pressed while the game runs fires exactly one bullet from the
      ship's nose, and changes nothing else. */
  lemma {:induction false} OneBulletPerSpace(s: State, events: seq<Event>, spawns: seq<EnemyDraw>)
    requires |spawns| == ENEMY_COUNT && EnemyDrawsOk(spawns)
    requires !s.gameOver
    requires forall i :: 0 <= i < |events| ==> events[i] == KeyDown(Space)
    ensures AfterEvents(s, events, spawns) ==
            s.(bullets := s.bullets + seq(|events|, _ => Shot(s.ship)))
    decreases |events|
  {
    if events != [] {
      var s1 := s.(bullets := s.bullets + [Shot(s.ship)]);
      assert OnEvent(s, events[0], spawns) == s1;
      OneBulletPerSpace(s1, events[1..], spawns);
      assert s1.bullets + seq(|events| - 1, _ => Shot(s.ship)) ==
             s.bullets + seq(|events|, _ => Shot(s.ship));
    }
  }

  // ------------------------------------------------------------------ tick

  /** How many of `kills` shot asteroids `if len(enemies) < 5` lets through
      when `present` asteroids survived the volley. */
  function TopUp(present: int, kills: nat): (n: nat)
    ensures n <= kills
    ensures present < ENEMY_COUNT ==> n == if present + kills <= ENEMY_COUNT then kills else ENEMY_COUNT - present
    ensures present >= ENEMY_COUNT ==> n == 0
  {
    var room := if present < ENEMY_COUNT then ENEMY_COUNT - present else 0;
    if kills < room then kills else room
  }

  /** How many of the spawn draws the volley of `s` uses up. */
  function VolleySpawns(s: State): (n: nat)
    ensures n <= |s.enemies|
  {
    var c := GroupCollide(s.enemies, s.bullets);
    TopUp(|c.survivors|, |c.killed|)
  }

  /** minishooter/main.py:162-168: every asteroid a bullet hits scores 10; new
      asteroids fill the field back up to five but never beyond, so five stay
      five. */
  function Shoot(s: State, spawns: seq<EnemyDraw>): (r: State)
    requires |spawns| >= |s.enemies| && EnemyDrawsOk(spawns)
    ensures var v := |GroupCollide(s.enemies, s.bullets).survivors|;
      |r.enemies| == if v >= ENEMY_COUNT then v
                     else if |s.enemies| < ENEMY_COUNT then |s.enemies| else ENEMY_COUNT
    ensures |r.enemies| <= |s.enemies|
    ensures r.score == s.score + 10 * (|s.enemies| - |GroupCollide(s.enemies, s.bullets).survivors|)
    ensures |r.bullets| + (r.score - s.score) / 10 <= |s.bullets|
    ensures r.bullets == GroupCollide(s.enemies, s.bullets).bullets
    ensures r.ship == s.ship && r.powerups == s.powerups && r.powerupTimer == s.powerupTimer
    ensures r.gameOver == s.gameOver && r.running == s.running
  {
    var c := GroupCollide(s.enemies, s.bullets);
    s.(bullets := c.bullets, enemies := c.survivors + Spawned(spawns[..VolleySpawns(s)]),
       score := s.score + 10 * |c.killed|)
  }

  /** The asteroids after the volley: the killed ones are exchanged for the
      first `VolleySpawns(s)` new ones from the draws, and an asteroid no bullet touches
      stays in play. */
  lemma VolleyEnemies(s: State, spawns: seq<EnemyDraw>)
    requires |spawns| >= |s.enemies| && EnemyDrawsOk(spawns)
    ensures var c := GroupCollide(s.enemies, s.bullets); var r := Shoot(s, spawns);
      multiset(r.enemies) + multiset(c.killed) == multiset(s.enemies) + multiset(Spawned(spawns[..VolleySpawns(s)]))
    ensures var r := Shoot(s, spawns);
      forall e :: e in s.enemies && !(exists b :: b in s.bullets && b.rect.Collides(e.rect)) ==> e in r.enemies
  {
    var c := GroupCollide(s.enemies, s.bullets);
    assert Shoot(s, spawns).enemies == c.survivors + Spawned(spawns[..VolleySpawns(s)]);
    GroupCollideParts(s.enemies, s.bullets);
    GroupCollideSpares(s.enemies, s.bullets);
  }

  /** minishooter/main.py:170-182: unless invulnerable, touching asteroids
      destroys all of them and costs exactly one life. The last life ends the
      game at once; otherwise 60 ticks of invulnerability start and every
      destroyed asteroid is replaced. */
  function Ram(s: State, spawns: seq<EnemyDraw>): (r: State)
    requires |spawns| >= |s.enemies| && EnemyDrawsOk(spawns)
    ensures s.ship.invulnerable || !Touching(s.ship.Box(), s.enemies) ==> r == s
    ensures !s.ship.invulnerable && Touching(s.ship.Box(), s.enemies) ==>
      r.ship.lives == s.ship.lives - 1 && r.ship.x == s.ship.x &&
      r == s.(ship := r.ship, enemies := r.enemies, gameOver := r.gameOver)
    ensures !s.ship.invulnerable && Touching(s.ship.Box(), s.enemies) && s.ship.lives <= 1 ==>
      r.gameOver && r.ship.invulnerable == s.ship.invulnerable && r.ship.timer == s.ship.timer &&
      |r.enemies| < |s.enemies|
    ensures !s.ship.invulnerable && Touching(s.ship.Box(), s.enemies) && s.ship.lives > 1 ==>
      r.gameOver == s.gameOver && r.ship.invulnerable && r.ship.timer == INVULNERABLE_TICKS &&
      |r.enemies| == |s.enemies|
    ensures var c := SpriteCollide(s.ship.Box(), s.enemies);
      !s.ship.invulnerable && s.ship.lives <= 1 ==> multiset(r.enemies) + multiset(c.hit) == multiset(s.enemies)
    ensures var c := SpriteCollide(s.ship.Box(), s.enemies);
      !s.ship.invulnerable && s.ship.lives > 1 ==>
        multiset(r.enemies) + multiset(c.hit) == multiset(s.enemies) + multiset(Spawned(spawns[..|c.hit|]))
  {
    if s.ship.invulnerable then s
    else
      var c := SpriteCollide(s.ship.Box(), s.enemies);
      if c.hit == [] then s
      else if s.ship.lives - 1 <= 0 then
        assert |c.kept| < |s.enemies|;
        s.(ship := s.ship.(lives := s.ship.lives - 1), enemies := c.kept, gameOver := true)
      else
        var born := Spawned(spawns[..|c.hit|]);
        assert |c.kept + born| == |s.enemies|;
        assert multiset(c.kept + born) + multiset(c.hit) == multiset(s.enemies) + multiset(born);
        s.(ship := s.ship.(lives := s.ship.lives - 1, invulnerable := true, timer := INVULNERABLE_TICKS),
           enemies := c.kept + born)
  }

  /** Which asteroids a vulnerable ship's hit leaves: every asteroid it does
      not touch stays, and the others are new ones; after the fatal hit exactly
      the untouched asteroids are left. */
  lemma RamEnemies(s: State, spawns: seq<EnemyDraw>)
    requires |spawns| >= |s.enemies| && EnemyDrawsOk(spawns)
    ensures var r := Ram(s, spawns);
      (forall e :: e in s.enemies && !e.rect.Collides(s.ship.Box()) ==> e in r.enemies) &&
      (!s.ship.invulnerable ==>
        forall e :: e in r.enemies ==> (e in s.enemies && !e.rect.Collides(s.ship.Box())) || e in Spawned(spawns))
    ensures var r := Ram(s, spawns);
      !s.ship.invulnerable && s.ship.lives <= 1 ==>
        forall e :: e in r.enemies <==> e in s.enemies && !e.rect.Collides(s.ship.Box())
  {
    var r := Ram(s, spawns);
    var c := SpriteCollide(s.ship.Box(), s.enemies);
    if s.ship.invulnerable {
    } else if c.hit == [] {
      assert r.enemies == c.kept;
    } else if s.ship.lives <= 1 {
      assert r.enemies == c.kept;
    } else {
      var born := Spawned(spawns[..|c.hit|]);
      assert r.enemies == c.kept + born;
      forall e | e in r.enemies
        ensures (e in s.enemies && !e.rect.Collides(s.ship.Box())) || e in Spawned(spawns)
      {
        if e !in c.kept {
          var i :| 0 <= i < |born| && born[i] == e;
          assert Spawned(spawns)[i] == e;
        }
      }
    }
  }

  /** The draws one tick may need: a recycle spot per asteroid, and a spawn
      for every asteroid the volley and then the ship could destroy. */
  predicate TickDrawsOk(s: State, d: Draws) {
    DrawsOk(d) && |d.recycle| >= |s.enemies| && |d.spawns| >= 2 * |s.enemies|
  }

  /** minishooter/main.py:162-194: the rest of a tick once every sprite has
      moved. The volley uses the first spawn draws and the ship's hit the ones
      after them. No asteroid is added beyond those in play, the score never
      drops, and the quit flag is kept. */
  function Resolve(m: State, d: Draws): (r: State)
    requires |d.spawns| >= 2 * |m.enemies| && DrawsOk(d)
    ensures |r.enemies| <= |m.enemies| && r.score >= m.score
    ensures r.paused == m.paused && r.running == m.running
  {
    var shot := Shoot(m, d.spawns);
    var rest := d.spawns[VolleySpawns(m)..];
    assert forall e :: e in rest ==> e in d.spawns;
    assert |GroupCollide(m.enemies, m.bullets).survivors| <= |m.enemies|;
    SpawnTimer(Collect(Ram(shot, rest)), d.powerup, POWERUP_PERIOD)
  }

  /** minishooter/main.py:156-194: one tick of the running game: every sprite
      moves, then the collisions, pick-ups and spawns follow. */
  function TickSpec(s: State, keys: Keys, d: Draws): (r: State)
    requires TickDrawsOk(s, d)
    ensures |r.enemies| <= |s.enemies| && r.score >= s.score
    ensures r.paused == s.paused && r.running == s.running
  {
    Resolve(Move(s, keys, d.recycle), d)
  }

  lemma MoveKeeps(s: State, keys: Keys, recycle: seq<Spot>)
    requires Inv(s) && !s.gameOver
    requires |recycle| >= |s.enemies| && forall p :: p in recycle ==> EnemySpotOk(p)
    ensures Inv(Move(s, keys, recycle)) && !Move(s, keys, recycle).gameOver
  {
    var r := Move(s, keys, recycle);
    forall b | b in r.bullets ensures IsBullet(b) {
      var o :| o in s.bullets && b == Fly(o);
      assert IsBullet(o);
    }
    forall p | p in r.powerups ensures IsPowerUp(p) {
      var o :| o in s.powerups && p == Fly(o);
      assert IsPowerUp(o);
    }
  }

  lemma ShootKeeps(s: State, spawns: seq<EnemyDraw>)
    requires Inv(s) && !s.gameOver && |spawns| >= |s.enemies| && EnemyDrawsOk(spawns)
    ensures Inv(Shoot(s, spawns)) && !Shoot(s, spawns).gameOver
  {
    ShootSprites(s, spawns);
    var r := Shoot(s, spawns);
    assert r.ship == s.ship && r.powerupTimer == s.powerupTimer && !r.gameOver;
  }

  lemma ShootSprites(s: State, spawns: seq<EnemyDraw>)
    requires SpritesOk(s) && |spawns| >= |s.enemies| && EnemyDrawsOk(spawns)
    ensures SpritesOk(Shoot(s, spawns))
  {
    var c := GroupCollide(s.enemies, s.bullets);
    var added := Spawned(spawns[..VolleySpawns(s)]);
    assert Shoot(s, spawns).enemies == c.survivors + added;
    assert forall e :: e in c.survivors + added ==> e in c.survivors || e in added;
  }

  lemma RamKeeps(s: State, spawns: seq<EnemyDraw>)
    requires Inv(s) && !s.gameOver && |spawns| >= |s.enemies| && EnemyDrawsOk(spawns)
    ensures Inv(Ram(s, spawns))
  {
    var r := Ram(s, spawns);
    assert forall e :: e in r.enemies ==> IsEnemy(e);
  }

  lemma CollectKeeps(s: State)
    requires Inv(s)
    ensures Inv(Collect(s))
  {
    var r := Collect(s);
    assert forall p :: p in r.powerups ==> p in s.powerups;
  }

  lemma SpawnKeeps(s: State, spot: Spot)
    requires Inv(s) && PowerUpSpotOk(spot)
    ensures Inv(SpawnTimer(s, spot, POWERUP_PERIOD))
  {
    var r := SpawnTimer(s, spot, POWERUP_PERIOD);
    assert forall p :: p in r.powerups ==> p in s.powerups || p == NewPowerUp(spot);
  }

  /** The tick keeps the invariant: the ship stays in the window, lives stay
      within [0, 5], the invulnerability flag agrees with its countdown, a
      running game keeps five asteroids, and the score stays a multiple of 10. */
  lemma TickKeepsInv(s: State, keys: Keys, d: Draws)
    requires Inv(s) && !s.gameOver && TickDrawsOk(s, d)
    ensures Inv(TickSpec(s, keys, d))
    ensures TickSpec(s, keys, d).score >= s.score
  {
    var s1 := Move(s, keys, d.recycle);
    MoveKeeps(s, keys, d.recycle);
    var s2 := Shoot(s1, d.spawns);
    ShootKeeps(s1, d.spawns);
    var rest := d.spawns[VolleySpawns(s1)..];
    assert forall e :: e in rest ==> e in d.spawns;
    var s3 := Ram(s2, rest);
    RamKeeps(s2, rest);
    var s4 := Collect(s3);
    CollectKeeps(s3);
    SpawnKeeps(s4, d.powerup);
  }

  /** The fatal hit ends the game at once, and only it does: the tick ends the
      game exactly when the ship, vulnerable and on its last life, touches an
      asteroid left after the volley. A pick-up later in the same tick can give
      a life back, and does so exactly when a power-up touches the moved ship,
      but the game stays over. */
  lemma FatalHitRule(s: State, keys: Keys, d: Draws)
    requires Inv(s) && !s.gameOver && TickDrawsOk(s, d)
    ensures var moved := Move(s, keys, d.recycle);
      var shot := Shoot(moved, d.spawns);
      var r := TickSpec(s, keys, d);
      (r.gameOver <==> !moved.ship.invulnerable && moved.ship.lives == 1 && Touching(moved.ship.Box(), shot.enemies)) &&
      (r.gameOver ==> (1 <= r.ship.lives <==> Touching(moved.ship.Box(), moved.powerups)))
  {
    MoveKeeps(s, keys, d.recycle);
    FatalHitResolve(Move(s, keys, d.recycle), d);
  }

  /** The same rule for the part of the tick after the moves. */
  lemma FatalHitResolve(m: State, d: Draws)
    requires Inv(m) && !m.gameOver && |d.spawns| >= 2 * |m.enemies| && DrawsOk(d)
    ensures var shot := Shoot(m, d.spawns);
      var r := Resolve(m, d);
      (r.gameOver <==> !m.ship.invulnerable && m.ship.lives == 1 && Touching(m.ship.Box(), shot.enemies)) &&
      (r.gameOver ==> (1 <= r.ship.lives <==> Touching(m.ship.Box(), m.powerups)))
  {
    var shot := Shoot(m, d.spawns);
    ShootKeeps(m, d.spawns);
    var rest := d.spawns[VolleySpawns(m)..];
    assert forall e :: e in rest ==> e in d.spawns;
    var rammed := Ram(shot, rest);
    assert rammed.ship.Box() == m.ship.Box() && rammed.powerups == m.powerups;
    var collected := Collect(rammed);
    assert Resolve(m, d).ship == collected.ship && Resolve(m, d).gameOver == rammed.gameOver;
    if rammed.gameOver {
      assert rammed.ship.lives == 0;
    }
  }

  /** A concrete tick of that rule: one life left, an asteroid and a star both
      overlapping the ship; the asteroid ends the game, the star gives a life
      back. */
  lemma FatalTickPickup()
    ensures var s := State(Ship(500, 1, false, 0), [], [Sprite(Rect(510, 640, 50, 50), 2)],
                           [Sprite(Rect(510, 640, 40, 40), 3)], 0, 0, false, false, true);
            var r := TickSpec(s, Keys(false, false), Draws([Spot(0, -50)], [EnemyDraw(0, -50, 2), EnemyDraw(0, -50, 2)], Spot(0, -50)));
            r.gameOver && r.ship.lives == 1 && !r.ship.invulnerable && r.enemies == []
  {
    StackedTickMoves();
    FatalTickEnds();
  }

  /** The rest of that tick: the asteroid ends the game and is destroyed, the
      star gives a life back. */
  lemma FatalTickEnds()
    ensures var r := Resolve(State(Ship(500, 1, false, 0), [], [Sprite(Rect(510, 642, 50, 50), 2)],
                                   [Sprite(Rect(510, 643, 40, 40), 3)], 0, 0, false, false, true),
                             Draws([Spot(0, -50)], [EnemyDraw(0, -50, 2), EnemyDraw(0, -50, 2)], Spot(0, -50)));
            r.gameOver && r.ship.lives == 1 && !r.ship.invulnerable && r.enemies == []
  {
    var m := State(Ship(500, 1, false, 0), [], [Sprite(Rect(510, 642, 50, 50), 2)],
                   [Sprite(Rect(510, 643, 40, 40), 3)], 0, 0, false, false, true);
    var spawns := [EnemyDraw(0, -50, 2), EnemyDraw(0, -50, 2)];
    assert GroupCollide(m.enemies, m.bullets) == Crash(m.enemies, [], []);
    var s2 := Shoot(m, spawns);
    assert s2 == m;
    var s3 := Ram(s2, spawns);
    assert SpriteCollide(m.ship.Box(), m.enemies) == Split(m.enemies, []);
    assert s3.ship.lives == 0 && s3.gameOver && s3.enemies == [];
    var s4 := Collect(s3);
    assert s4.ship.lives == 1;
  }

  // ----------------------------------------------------------------- frame

  predicate FrameOk(f: Frame) {
    DrawsOk(f.draws) && |f.draws.recycle| >= ENEMY_COUNT && |f.draws.spawns| >= 2 * ENEMY_COUNT &&
    |f.restart| == ENEMY_COUNT && EnemyDrawsOk(f.restart)
  }

  /** minishooter/main.py:128-194: one iteration of `while running`: all
      events first, then a tick unless the game is over. */
  function FrameSpec(s: State, f: Frame): (r: State)
    requires FrameOk(f) && |s.enemies| <= ENEMY_COUNT
    ensures |r.enemies| <= ENEMY_COUNT
    ensures r.running <==> s.running && Quit !in f.events
  {
    var s1 := AfterEvents(s, f.events, f.restart);
    if !s1.gameOver then TickSpec(s1, f.keys, f.draws) else s1
  }

  lemma FrameKeepsInv(s: State, f: Frame)
    requires Inv(s) && FrameOk(f)
    ensures Inv(FrameSpec(s, f))
  {
    var s1 := AfterEvents(s, f.events, f.restart);
    if !s1.gameOver {
      TickKeepsInv(s1, f.keys, f.draws);
    }
  }

  /** After game over, a frame without R moves nothing, spawns nothing and
      fires nothing: at most the quit flag changes. */
  lemma {:induction false} FrozenFrame(s: State, f: Frame)
    requires FrameOk(f) && |s.enemies| <= ENEMY_COUNT && s.gameOver
    requires forall i :: 0 <= i < |f.events| ==> f.events[i] != KeyDown(LetterR)
    ensures FrameSpec(s, f) == s.(running := FrameSpec(s, f).running)
  {
    FrozenEvents(s, f.events, f.restart);
  }

  lemma {:induction false} FrozenEvents(s: State, events: seq<Event>, spawns: seq<EnemyDraw>)
    requires |spawns| == ENEMY_COUNT && EnemyDrawsOk(spawns) && s.gameOver
    requires forall i :: 0 <= i < |events| ==> events[i] != KeyDown(LetterR)
    ensures AfterEvents(s, events, spawns) == s.(running := AfterEvents(s, events, spawns).running)
    decreases |events|
  {
    if events != [] {
      var s1 := OnEvent(s, events[0], spawns);
      assert s1 == s.(running := s1.running);
      FrozenEvents(s1, events[1..], spawns);
    }
  }

  /** `while running`: frames are played until one of them quits, so the game
      still runs afterwards exactly when it ran before and no frame quit. */
  function Play(s: State, frames: seq<Frame>): (r: State)
    requires forall f :: f in frames ==> FrameOk(f)
    requires |s.enemies| <= ENEMY_COUNT
    ensures |r.enemies| <= ENEMY_COUNT
    ensures r.running <==> s.running && forall f :: f in frames ==> Quit !in f.events
    decreases |frames|
  {
    if frames == [] || !s.running then s
    else
      assert frames == [frames[0]] + frames[1..];
      Play(FrameSpec(s, frames[0]), frames[1..])
  }

  lemma {:induction false} PlayKeepsInv(s: State, frames: seq<Frame>)
    requires Inv(s) && forall f :: f in frames ==> FrameOk(f)
    ensures Inv(Play(s, frames))
    decreases |frames|
  {
    if frames != [] && s.running {
      FrameKeepsInv(s, frames[0]);
      PlayKeepsInv(FrameSpec(s, frames[0]), frames[1..]);
    }
  }

  // ----------------------------------------------------------------- world

  /** The module-level state of minishooter/main.py: the player, the sprite
      groups and the loop's variables. */
  class World {
    const player: Player
    var bullets: seq<Sprite>
    var enemies: seq<Sprite>
    var powerups: seq<Sprite>
    var score: int
    var powerupTimer: int
    var gameOver: bool
    var running: bool

    function Snapshot(): State
      reads this, player
    {
      State(player.Snapshot(), bullets, enemies, powerups, score, powerupTimer, gameOver, false, running)
    }

    ghost predicate Valid()
      reads this, player
    {
      Inv(Snapshot())
    }

    /** minishooter/main.py:103-124 */
    constructor (spawns: seq<EnemyDraw>)
      requires |spawns| == ENEMY_COUNT && EnemyDrawsOk(spawns)
      ensures Snapshot() == Initial(spawns) && Valid()
    {
      player := new Player();
      var es := SpawnEnemies(spawns);
      bullets, enemies, powerups := [], es, [];
      score, powerupTimer := 0, 0;
      gameOver, running := false, true;
    }

    /** minishooter/main.py:140-154 */
    method Restart(spawns: seq<EnemyDraw>)
      requires |spawns| == ENEMY_COUNT && EnemyDrawsOk(spawns)
      modifies this, player
      ensures Snapshot() == Restarted(old(Snapshot()), spawns)
    {
      gameOver := false;
      score := 0;
      player.lives := MAX_LIVES;
      player.x := SHIP_START_X;
      player.invulnerable := false;
      bullets, powerups := [], [];
      enemies := SpawnEnemies(spawns);
    }

    /** minishooter/main.py:133-154 */
    method HandleEvent(e: Event, spawns: seq<EnemyDraw>)
      requires |spawns| == ENEMY_COUNT && EnemyDrawsOk(spawns)
      modifies this, player
      ensures Snapshot() == OnEvent(old(Snapshot()), e, spawns)
    {
      match e {
        case Quit =>
          running := false;
        case KeyDown(k) =>
          if k == Space && !gameOver {
            bullets := bullets + [NewBullet(player.x + SHIP_W / 2, SHIP_Y)];
          } else if k == LetterR && gameOver {
            Restart(spawns);
          }
        case OtherEvent =>
      }
    }

    /** minishooter/main.py:132-154 */
    method HandleEvents(events: seq<Event>, spawns: seq<EnemyDraw>)
      requires |spawns| == ENEMY_COUNT && EnemyDrawsOk(spawns)
      modifies this, player
      ensures Snapshot() == AfterEvents(old(Snapshot()), events, spawns)
    {
      var i := 0;
      while i < |events|
        invariant 0 <= i <= |events|
        invariant AfterEvents(Snapshot(), events[i..], spawns) == AfterEvents(old(Snapshot()), events, spawns)
      {
        assert events[i..][1..] == events[i + 1..];
        HandleEvent(events[i], spawns);
        i := i + 1;
      }
    }

    /** minishooter/main.py:157-160 */
    method MoveAll(keys: Keys, recycle: seq<Spot>)
      requires |recycle| >= |enemies|
      modifies this, player
      ensures Snapshot() == Move(old(Snapshot()), keys, recycle)
    {
      ghost var s0 := Snapshot();
      player.Update(keys);
      bullets := UpdateBullets(bullets);
      enemies := UpdateEnemies(enemies, recycle);
      powerups := UpdatePowerUps(powerups);
      assert Snapshot() == s0.(ship := player.Snapshot(), bullets := bullets, enemies := enemies, powerups := powerups);
    }

    /** minishooter/main.py:162-168; returns how many spawn draws it used. */
    method ShootEnemies(spawns: seq<EnemyDraw>) returns (used: nat)
      requires |spawns| >= |enemies| && EnemyDrawsOk(spawns)
      modifies this
      ensures used == VolleySpawns(old(Snapshot()))
      ensures Snapshot() == Shoot(old(Snapshot()), spawns)
    {
      var hits := GroupCollide(enemies, bullets);
      enemies, bullets := hits.survivors, hits.bullets;
      used := ScoreAndTopUp(|hits.killed|, spawns);
    }

    /** minishooter/main.py:163-168: `for hit in hits`: 10 points each, and a
        new asteroid while fewer than five are left. */
    method ScoreAndTopUp(kills: nat, spawns: seq<EnemyDraw>) returns (used: nat)
      requires kills <= |spawns| && EnemyDrawsOk(spawns)
      modifies this
      ensures used == TopUp(old(|enemies|), kills)
      ensures Snapshot() == old(Snapshot()).(enemies := old(enemies) + Spawned(spawns[..used]),
                                             score := old(score) + 10 * kills)
    {
      used := 0;
      var i := 0;
      while i < kills
        invariant 0 <= i <= kills && used == TopUp(old(|enemies|), i)
        invariant enemies == old(enemies) + Spawned(spawns[..used])
        invariant score == old(score) + 10 * i
        invariant bullets == old(bullets) && powerups == old(powerups) && powerupTimer == old(powerupTimer)
        invariant gameOver == old(gameOver) && running == old(running)
      {
        score := score + 10;
        if |enemies| < ENEMY_COUNT {
          assert spawns[..used + 1] == spawns[..used] + [spawns[used]];
          enemies := enemies + [NewEnemy(spawns[used])];
          used := used + 1;
        }
        i := i + 1;
      }
    }

    /** minishooter/main.py:170-182 */
    method RamPlayer(spawns: seq<EnemyDraw>)
      requires |spawns| >= |enemies| && EnemyDrawsOk(spawns)
      modifies this, player
      ensures Snapshot() == Ram(old(Snapshot()), spawns)
    {
      if !player.invulnerable {
        var hits := SpriteCollide(player.Snapshot().Box(), enemies);
        enemies := hits.kept;
        if hits.hit != [] {
          player.lives := player.lives - 1;
          if player.lives <= 0 {
            gameOver := true;
          } else {
            player.invulnerable := true;
            player.invulnerableTimer := INVULNERABLE_TICKS;
            var born := SpawnEnemies(spawns[..|hits.hit|]);
            enemies := enemies + born;
          }
        }
      }
    }

    /** minishooter/main.py:184-187 */
    method CollectPowerUps()
      modifies this, player
      ensures Snapshot() == Collect(old(Snapshot()))
    {
      var hits := SpriteCollide(player.Snapshot().Box(), powerups).hit;
      powerups := SpriteCollide(player.Snapshot().Box(), powerups).kept;
      var i := 0;
      while i < |hits|
        invariant 0 <= i <= |hits|
        invariant GrantLives(player.lives, |hits| - i) == GrantLives(old(player.lives), |hits|)
        invariant player.x == old(player.x) && player.invulnerable == old(player.invulnerable)
        invariant player.invulnerableTimer == old(player.invulnerableTimer)
        invariant bullets == old(bullets) && enemies == old(enemies) && score == old(score)
        invariant powerups == SpriteCollide(old(player.Snapshot()).Box(), old(powerups)).kept
        invariant powerupTimer == old(powerupTimer)
        invariant gameOver == old(gameOver) && running == old(running)
      {
        if player.lives < MAX_LIVES {
          player.lives := player.lives + 1;
        }
        i := i + 1;
      }
    }

    /** minishooter/main.py:189-194 */
    method TickPowerUpTimer(spot: Spot)
      requires PowerUpSpotOk(spot)
      modifies this
      ensures Snapshot() == SpawnTimer(old(Snapshot()), spot, POWERUP_PERIOD)
    {
      powerupTimer := powerupTimer + 1;
      if powerupTimer >= POWERUP_PERIOD {
        powerups := powerups + [NewPowerUp(spot)];
        powerupTimer := 0;
      }
    }

    /** minishooter/main.py:156-194 */
    method Tick(keys: Keys, d: Draws)
      requires TickDrawsOk(Snapshot(), d)
      modifies this, player
      ensures Snapshot() == TickSpec(old(Snapshot()), keys, d)
    {
      MoveAll(keys, d.recycle);
      ResolveTick(d);
    }

    /** minishooter/main.py:162-194 */
    method ResolveTick(d: Draws)
      requires |d.spawns| >= 2 * |enemies| && DrawsOk(d)
      modifies this, player
      ensures Snapshot() == Resolve(old(Snapshot()), d)
    {
      var used := ShootEnemies(d.spawns);
      RamPlayer(d.spawns[used..]);
      CollectPowerUps();
      TickPowerUpTimer(d.powerup);
    }

    /** minishooter/main.py:128-194 */
    method RunFrame(f: Frame)
      requires FrameOk(f) && |enemies| <= ENEMY_COUNT
      modifies this, player
      ensures Snapshot() == FrameSpec(old(Snapshot()), f)
    {
      HandleEvents(f.events, f.restart);
      if !gameOver {
        Tick(f.keys, f.draws);
      }
    }

    /** minishooter/main.py:127-194: the main loop, over the frames supplied. */
    method Run(frames: seq<Frame>) returns (played: nat)
      requires Valid() && forall f :: f in frames ==> FrameOk(f)
      modifies this, player
      ensures Valid() && Snapshot() == Play(old(Snapshot()), frames)
      ensures played <= |frames| && (played < |frames| ==> !running)
    {
      played := 0;
      while running && played < |frames|
        invariant played <= |frames| && Valid()
        invariant Play(Snapshot(), frames[played..]) == Play(old(Snapshot()), frames)
      {
        ghost var before := Snapshot();
        assert frames[played..][1..] == frames[played + 1..];
        assert frames[played] in frames && |enemies| <= ENEMY_COUNT;
        assert Play(before, frames[played..]) == Play(FrameSpec(before, frames[played]), frames[played + 1..]);
        RunFrame(frames[played]);
        FrameKeepsInv(before, frames[played]);
        played := played + 1;
      }
    }
  }
}
