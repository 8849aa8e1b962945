# Space shooter: a verified model of the game simulation

The repository is a small pygame space shooter. The ship sits at the bottom of a
1080×720 window and moves left and right. It fires bullets at falling asteroids
and collects falling stars that give back lives. The game comes in two nearly
identical variants:

- `main.py` has a pause key. A shot asteroid is always replaced. An asteroid
  that hits the ship survives. Invulnerability lasts 120 ticks. A power-up
  appears every 600 ticks. Game over is tested once, at the end of the tick.
- `minishooter/main.py` has no pause key. A shot asteroid is replaced only
  while fewer than five remain. An asteroid that hits the ship is destroyed.
  Invulnerability lasts 60 ticks. A power-up appears every 300 ticks. The hit
  that takes the last life ends the game at once.

This project models one frame of each variant's main loop in Dafny. A frame
handles the key-down events, then runs one tick of the simulation: move the
ship and the sprites, resolve the three kinds of collision, run the power-up
timer and test for game over. The project proves what the rules promise.

Modules:

- `Sprites` (`sprites.dfy`) holds what both variants share:
  - the geometry constants;
  - pygame's `Rect` and its overlap test;
  - the bullet, asteroid and power-up sprites and their `update` methods;
  - the `Player` class;
  - pygame's `spritecollide` and `groupcollide`;
  - the state of a main loop, and the steps of a tick both variants take alike
    (moving, picking up stars, the power-up timer);
  - the inputs of a frame.
- `Shooter` (`shooter.dfy`) models `main.py`.
- `MiniShooter` (`minishooter.dfy`) models `minishooter/main.py`.
- `Variants` (`variants.dfy`) relates the two variants.

Each variant has a `World` class whose fields are the module-level variables of
its main loop. minishooter/main.py has no pause flag, so its states are never
paused. The fields are:

- the player;
- the three sprite groups;
- `score`, `powerup_timer`, `game_over`, `running`, and `paused` where it exists.

Every `World` method mirrors the code it models statement by statement. It
promises that its new `Snapshot()` equals a pure function of the old one:
`OnEvent`, `Move`, `Shoot`, `Ram`, `Collect`, `SpawnTimer`, `Resolve`,
`TickSpec`, `FrameSpec` or `Play`. The properties are proved as contracts of those
functions and as lemmas about them:

- the invariant a frame preserves (`Inv`);
- the per-step rules;
- the scenario lemmas.

Modelling decisions:

- **Sprites are values.** A bullet, asteroid or power-up is a `Sprite` value: a
  rectangle and a vertical speed. A group is a `seq` of them in insertion order,
  which is pygame's iteration order. The game logic never shares a sprite
  between groups; `all_sprites` is used only for drawing.
- **Random draws are inputs.** Every value `random.randint` would supply is
  passed in, with its range as a precondition:
  - a recycling spot for the asteroid at each index, used only if it leaves the
    window;
  - a stream of new-asteroid draws, consumed in order;
  - one power-up spot per tick;
  - five draws for a restart.
- **Keys are inputs.** A frame's held keys (`key.get_pressed`) and its event
  list (`event.get`) are inputs too.
- **pygame is modelled.** `Rect.colliderect` is a strict overlap of the
  rectangles' interiors, since all rectangles here have positive size.
  `spritecollide` is an order-preserving filter. `groupcollide(enemies,
  bullets, True, True)` is a pass over the asteroids in order: each asteroid
  that overlaps a bullet still alive is killed, together with every such bullet.
- **Integer division agrees.** Python's `//` and `%` by a positive constant
  agree with Dafny's `/` and `%`.

## Model

| member | source | states |
|---|---|---|
| Sprites.NewBullet | main.py:68-74 | `Bullet(x, y)` is a 5×10 rectangle centred on (x, y) with speed −7 |
| Sprites.Shot | main.py:146-149 | a bullet fired from a ship inside the window is centred on the ship's top edge and is a well-formed bullet |
| Sprites.NewEnemy | main.py:82-90 | `Enemy()` is a 50×50 asteroid at the drawn position and speed, within the asteroid ranges |
| Sprites.NewPowerUp | main.py:99-107 | `PowerUp()` is a 40×40 star at the drawn position, falling at speed 3 |
| Sprites.Rect.Collides | main.py:189-191 | `colliderect` on rectangles of positive size holds exactly when some pixel lies in both; rectangles that only share an edge do not collide |
| Sprites.Spawned | main.py:124-127 | n `Enemy()` calls give n asteroids, the i-th built from the i-th draw, all well formed |
| Sprites.SpawnEnemies | main.py:124-127 | the spawning loop builds exactly `Spawned` of its draws |
| Sprites.UpdateBullets | main.py:76-79 | `bullets.update()` moves every bullet up by its speed, keeps exactly those whose bottom is still ≥ 0, and adds none; as a multiset the group left is exactly the moved bullets still on screen, each as many times as it was there |
| Sprites.UpdateEnemies | main.py:92-96 | `enemies.update()` removes no asteroid and keeps each one's speed and size; an asteroid whose top passes the bottom edge moves to its recycling spot, any other moves down by its speed; well-formed asteroids stay well formed |
| Sprites.Descend | main.py:92-96 | `Enemy.update` for one asteroid: speed and size kept; past the bottom edge it moves to the drawn spot, otherwise down by its speed; with a spot in the drawing range a well-formed asteroid stays well formed |
| Sprites.UpdatePowerUps | main.py:109-112 | `powerups.update()` moves every star down, keeps exactly those whose top is still ≤ HEIGHT, and adds none; as a multiset the group left is exactly the moved stars still on screen |
| Sprites.SpriteCollide | main.py:199 | `spritecollide` splits a group into the members overlapping a rectangle and the rest: as multisets the two parts add up to the group, so no member is lost or duplicated; it hits nothing exactly when no member overlaps, and then the group is left unchanged |
| Sprites.GroupCollide | main.py:181 | the bullet/asteroid pass: survivors and killed asteroids together are as many as the asteroids; each kill removes at least one bullet; no bullet and no surviving asteroid is invented |
| Sprites.GroupCollideParts | main.py:181 | as multisets, survivors and killed asteroids add up exactly to the asteroids, and the bullets left are contained in the bullets |
| Sprites.GroupCollideSound | main.py:181 | after the pass, no surviving asteroid overlaps a bullet still alive; every killed asteroid overlapped a bullet; every removed bullet overlapped a killed asteroid |
| Sprites.GroupCollideSpares | main.py:181 | the pass never kills an asteroid that no bullet overlaps |
| Sprites.Steer | main.py:41-53 | after the arrow keys and the clamp, the ship's x is in [0, 1020]; it moves by the keys when that stays inside, and is pinned to the nearer edge otherwise |
| Sprites.SteerIdle | main.py:41-53 | with no key held, a ship inside the window stays put |
| Sprites.ShipUpdate | main.py:41-65 | `Player.update` moves the ship to `Steer` of its x and the keys and keeps the lives; while invulnerable the countdown drops by exactly one and the flag stays set exactly while it is positive; otherwise the countdown is untouched |
| Sprites.InvulnerabilityLasts | main.py:55-63 | invulnerability with countdown T lasts exactly T updates, whatever keys are held |
| Sprites.Player.constructor | main.py:29-39 | the ship starts centred (x = 510) with five lives, not invulnerable |
| Sprites.Player.Update | main.py:41-65 | the in-place update is `ShipUpdate` of the old ship |
| Sprites.GrantLives | main.py:200-202 | n pickups add n lives but never go above five, and add none at five |
| Sprites.SpawnsEveryPeriod | main.py:204-210 | over k ticks from a timer in [0, period), the spawn timer fires exactly once per full period and ends at the remainder |
| Sprites.Move | main.py:174-178 | the first steps of a tick (minishooter/main.py, lines 157-160, is the same) keep the asteroid count |
| Sprites.Collect | main.py:198-202 | every star touching the ship is removed and the others stay, counted as a multiset, invulnerable or not (minishooter/main.py, lines 184-187, is the same); with n the number of stars taken, lives become min(lives + n, 5) when below five and stay put otherwise, game over or not |
| Sprites.SpawnTimer | main.py:204-210 | for a period of 600 here and 300 in minishooter/main.py (lines 189-194): the timer stays in [0, period); when it reaches the period it spawns exactly one power-up and restarts at 0, otherwise it counts up and spawns nothing |
| Sprites.StackedTickMoves | main.py:174-178 | a concrete move step: a ship with an asteroid and a star overlapping it stays put while the asteroid falls 2 pixels and the star 3 |
| Shooter.Alpha | main.py:56-65 | the ship is drawn at alpha 128 or 255, and fully opaque whenever it is not invulnerable |
| Shooter.FlickerBlinks | main.py:61-63 | while invulnerable the ship is dim (alpha 128) exactly when the countdown modulo 10 is below 5: the alpha holds steady within each block of five ticks, flips from one block to the next, and repeats every 10 |
| Shooter.Initial | main.py:121-134 | the starting world satisfies the invariant, is running, and is neither paused nor over |
| Shooter.Restarted | main.py:152-166 | R resets score, lives, position, the invulnerability flag, bullets and power-ups, and deals the five asteroids built from the draws; it keeps the invulnerability countdown, the power-up timer and the pause flag; after game over it re-establishes the invariant |
| Shooter.OnEvent | main.py:141-170 | P toggles the pause, even when the game is over; SPACE fires one bullet only when neither paused nor over; R is `Restarted` after game over and does nothing otherwise; other keys and events change nothing; QUIT stops the loop and nothing else stops it; every event keeps the invariant |
| Shooter.AfterEvents | main.py:140-170 | the frame's event list keeps the invariant, leaves five asteroids or the previous count, and leaves the loop running exactly when it was and no QUIT came |
| Shooter.OneBulletPerSpace | main.py:146-149 | n SPACE presses in a running game fire exactly n bullets from the nose and change nothing else |
| Shooter.Shoot | main.py:180-187 | every asteroid shot adds exactly 10 to the score and is replaced one-for-one, so the count never changes; the bullets left are those `groupcollide` spares, each kill using one up; nothing else changes |
| Shooter.VolleyEnemies | main.py:181-187 | as multisets, the asteroids after the volley plus the killed ones are the asteroids before plus one new asteroid per kill from the draws; an asteroid no bullet touches stays in play |
| Shooter.Ram | main.py:189-195 | unless invulnerable, touching any number of asteroids costs exactly one life and sets invulnerability for 120 ticks, and removes no asteroid; otherwise nothing changes |
| Shooter.CheckGameOver | main.py:212-214 | the game is over afterwards exactly when it was already or no life is left; nothing else changes |
| Shooter.Resolve | main.py:180-214 | the collision half of a tick keeps the asteroid count and the pause and quit flags, never lowers the score, and leaves the game over exactly when it was or no life is left |
| Shooter.TickSpec | main.py:173-214 | a whole tick keeps the asteroid count and the pause and quit flags, never lowers the score, and ends the game exactly when it was over or no life is left |
| Shooter.MoveKeeps | main.py:174-178 | moving keeps the sprites well formed and the ship in range |
| Shooter.ShootKeeps | main.py:180-187 | the bullet pass keeps five well-formed asteroids and a non-negative score that is a multiple of 10 |
| Shooter.ShootSprites | main.py:180-187 | the bullet pass keeps every sprite well formed and the asteroid count at five |
| Shooter.RamKeeps | main.py:189-195 | a hit on a ship with a life left keeps lives in [0, 5] and the countdown consistent |
| Shooter.CollectKeeps | main.py:198-202 | pickups keep lives in [0, 5] |
| Shooter.SpawnKeeps | main.py:204-210 | the spawn timer keeps its range and spawns only well-formed power-ups |
| Shooter.TickKeepsInv | main.py:173-214 | a running tick keeps the invariant: ship in the window, lives in [0, 5], five asteroids, a score that never decreases and stays a multiple of 10, and game over exactly when no life is left |
| Shooter.LastLifeRule | main.py:189-214 | in every running tick: the game ends exactly when the asteroid hit took the last life and no star touches the moved ship; a star touching it in that tick always saves the game |
| Shooter.LastLifeResolve | main.py:189-214 | the same rule for the collision half of the tick, from any state after the moves |
| Shooter.PickupSavesFatalTick | main.py:189-214 | a concrete tick of that rule: one life, an asteroid and a star on the ship; the game goes on with one life |
| Shooter.FatalTickResolves | main.py:189-214 | the collision half of that concrete tick: the asteroid takes the life, the star gives it back |
| Shooter.FrameSpec | main.py:136-214 | a frame never leaves more than five asteroids, and leaves the loop running exactly when it was and the frame had no QUIT |
| Shooter.FrameKeepsInv | main.py:136-214 | a whole frame keeps the invariant |
| Shooter.FrozenFrame | main.py:172-173 | while paused or over, a frame without P or R moves, fires, spawns and collides nothing; at most the quit flag changes |
| Shooter.FrozenEvents | main.py:140-170 | while paused or over, events other than P and R change at most the quit flag |
| Shooter.Play | main.py:136-214 | frames are played until one quits: the loop runs afterwards exactly when it ran before and no frame had a QUIT; never more than five asteroids |
| Shooter.PlayKeepsInv | main.py:136-214 | the invariant holds after any number of frames |
| Shooter.World.constructor | main.py:114-134 | the module-level setup builds `Initial` and satisfies the invariant |
| Shooter.World.Restart | main.py:152-166 | the in-place restart is `Restarted` |
| Shooter.World.HandleEvent | main.py:141-170 | the in-place handling of one event is `OnEvent` |
| Shooter.World.HandleEvents | main.py:140-170 | the event loop is `AfterEvents` |
| Shooter.World.MoveAll | main.py:174-178 | the in-place updates are `Move` |
| Shooter.World.ShootEnemies | main.py:180-187 | the in-place bullet pass is `Shoot` |
| Shooter.World.ScoreAndReplace | main.py:182-187 | the `for hit in hits` loop adds 10 and one new asteroid per kill |
| Shooter.World.RamPlayer | main.py:189-195 | the in-place collision with asteroids is `Ram` |
| Shooter.World.CollectPowerUps | main.py:198-202 | the in-place pickup loop is `Collect` |
| Shooter.World.TickPowerUpTimer | main.py:204-210 | the in-place timer step is `SpawnTimer` |
| Shooter.World.ResolveTick | main.py:180-214 | the in-place collision half of a tick is `Resolve` |
| Shooter.World.Tick | main.py:173-214 | the in-place tick is `TickSpec` |
| Shooter.World.RunFrame | main.py:137-214 | one pass of the main loop is `FrameSpec` |
| Shooter.World.Run | main.py:136-214 | the main loop plays the frames until one quits and keeps the invariant |
| MiniShooter.Alpha | minishooter/main.py:48-54 | the ship is drawn at alpha 128 or 255, and fully opaque whenever it is not invulnerable |
| MiniShooter.Initial | minishooter/main.py:109-124 | the starting world satisfies the invariant, is running and is not over |
| MiniShooter.Restarted | minishooter/main.py:140-154 | R resets score, lives, position, the invulnerability flag and all groups, and deals the five asteroids built from the draws; it keeps the countdown and the power-up timer; after game over it re-establishes the invariant |
| MiniShooter.OnEvent | minishooter/main.py:133-154 | SPACE fires one bullet only when the game is not over; R is `Restarted` after game over and does nothing otherwise; P, other keys and other events change nothing; QUIT stops the loop and nothing else stops it; every event keeps the invariant |
| MiniShooter.AfterEvents | minishooter/main.py:132-154 | the frame's event list keeps the invariant and leaves the loop running exactly when it was and no QUIT came |
| MiniShooter.OneBulletPerSpace | minishooter/main.py:136-139 | n SPACE presses in a running game fire exactly n bullets and change nothing else |
| MiniShooter.TopUp | minishooter/main.py:163-168 | the replacements the `len(enemies) < 5` test lets through: never more than the kills, and exactly enough to refill to five |
| MiniShooter.VolleySpawns | minishooter/main.py:162-168 | a volley uses at most one new-asteroid draw per asteroid |
| MiniShooter.Shoot | minishooter/main.py:162-168 | every asteroid shot adds 10; the pass never raises the count, keeps a count of five or fewer exactly, and cuts a larger count to max(5, survivors); the bullets left are those `groupcollide` spares; nothing else changes |
| MiniShooter.VolleyEnemies | minishooter/main.py:162-168 | as multisets, the asteroids after the volley plus the killed ones are the asteroids before plus the `VolleySpawns` new asteroids from the draws; an asteroid no bullet touches stays in play |
| MiniShooter.Ram | minishooter/main.py:170-182 | unless invulnerable, touching asteroids costs one life and destroys exactly the overlapping ones: as multisets, the asteroids left plus those destroyed are the asteroids before, plus, if a life remains, one new asteroid per destroyed one from the next draws; the last life ends the game at once with no invulnerability, leaving fewer asteroids; otherwise 60 ticks of invulnerability start and the count is kept; without a touch or while invulnerable nothing changes |
| MiniShooter.RamEnemies | minishooter/main.py:170-182 | every asteroid the ship does not touch stays; a vulnerable ship's hit leaves only untouched asteroids and new ones, and after the fatal hit exactly the untouched ones |
| MiniShooter.MoveKeeps | minishooter/main.py:157-160 | moving keeps the invariant of a running game |
| MiniShooter.ShootKeeps | minishooter/main.py:162-168 | the bullet pass keeps five well-formed asteroids and a score that is a multiple of 10 |
| MiniShooter.ShootSprites | minishooter/main.py:162-168 | the bullet pass keeps every sprite well formed and at most five asteroids |
| MiniShooter.Resolve | minishooter/main.py:162-194 | the collision half of a tick never adds asteroids beyond those in play, never lowers the score, and keeps the quit flag |
| MiniShooter.TickSpec | minishooter/main.py:156-194 | a whole tick never adds asteroids beyond those in play, never lowers the score, and keeps the quit flag |
| MiniShooter.RamKeeps | minishooter/main.py:170-182 | the asteroid hit keeps the invariant; a game over leaves the ship vulnerable |
| MiniShooter.CollectKeeps | minishooter/main.py:184-187 | pickups keep the invariant |
| MiniShooter.SpawnKeeps | minishooter/main.py:189-194 | the spawn timer keeps the invariant |
| MiniShooter.TickKeepsInv | minishooter/main.py:156-194 | a running tick keeps the invariant: ship in the window, lives in [0, 5], invulnerable exactly while the countdown is positive, at most five asteroids and exactly five while running, and a score that never decreases |
| MiniShooter.FatalHitRule | minishooter/main.py:170-187 | in every running tick: the game ends exactly when the vulnerable ship on its last life touches an asteroid left after the volley; it then ends with a life exactly when a star touches the moved ship |
| MiniShooter.FatalHitResolve | minishooter/main.py:170-187 | the same rule for the collision half of the tick, from any running state after the moves |
| MiniShooter.FatalTickPickup | minishooter/main.py:170-187 | a concrete tick of that rule: a star collected in the tick of a fatal hit gives a life back, but the game stays over, with one life |
| MiniShooter.FatalTickEnds | minishooter/main.py:170-187 | the collision half of that concrete tick: the asteroid ends the game and is destroyed, the star gives a life back |
| MiniShooter.FrameSpec | minishooter/main.py:128-194 | a frame never leaves more than five asteroids, and leaves the loop running exactly when it was and the frame had no QUIT |
| MiniShooter.FrameKeepsInv | minishooter/main.py:128-194 | a whole frame keeps the invariant |
| MiniShooter.FrozenFrame | minishooter/main.py:156 | after game over, a frame without R moves, fires, spawns and collides nothing; at most the quit flag changes |
| MiniShooter.FrozenEvents | minishooter/main.py:132-154 | after game over, events other than R change at most the quit flag |
| MiniShooter.Play | minishooter/main.py:127-194 | frames are played until one quits: the loop runs afterwards exactly when it ran before and no frame had a QUIT; never more than five asteroids |
| MiniShooter.PlayKeepsInv | minishooter/main.py:127-194 | the invariant holds after any number of frames |
| MiniShooter.World.constructor | minishooter/main.py:103-124 | the module-level setup builds `Initial` |
| MiniShooter.World.Restart | minishooter/main.py:140-154 | the in-place restart is `Restarted` |
| MiniShooter.World.HandleEvent | minishooter/main.py:133-154 | the in-place handling of one event is `OnEvent` |
| MiniShooter.World.HandleEvents | minishooter/main.py:132-154 | the event loop is `AfterEvents` |
| MiniShooter.World.MoveAll | minishooter/main.py:157-160 | the in-place updates are `Move` |
| MiniShooter.World.ShootEnemies | minishooter/main.py:162-168 | the in-place bullet pass is `Shoot` and reports how many draws it used |
| MiniShooter.World.ScoreAndTopUp | minishooter/main.py:163-168 | the `for hit in hits` loop adds 10 per kill and exactly `TopUp` new asteroids |
| MiniShooter.World.RamPlayer | minishooter/main.py:170-182 | the in-place collision with asteroids is `Ram` |
| MiniShooter.World.CollectPowerUps | minishooter/main.py:184-187 | the in-place pickup loop is `Collect` |
| MiniShooter.World.TickPowerUpTimer | minishooter/main.py:189-194 | the in-place timer step is `SpawnTimer` |
| MiniShooter.World.ResolveTick | minishooter/main.py:162-194 | the in-place collision half of a tick is `Resolve` |
| MiniShooter.World.Tick | minishooter/main.py:156-194 | the in-place tick is `TickSpec` |
| MiniShooter.World.RunFrame | minishooter/main.py:128-194 | one pass of the main loop is `FrameSpec` |
| MiniShooter.World.Run | minishooter/main.py:127-194 | the main loop plays the frames until one quits and keeps the invariant |
| Variants.FlickerAgrees | main.py:61-63 | `(t // 5) % 2 == 0` and `t % 10 < 5` (minishooter/main.py, line 54) give the same alpha for every countdown |
| Variants.ShootAgrees | main.py:180-187 | with five asteroids in play, the top-up rule of minishooter/main.py replaces every kill, exactly as main.py does |

## Left out

- Rendering and I/O are not modelled: pygame initialisation, the window, image
  loading and scaling, music, fonts, drawing, `display.flip` and `clock.tick`.
  They hold no game logic.
- `image.set_alpha` is not modelled as a side effect. `Alpha` in each variant
  gives the value the call sets, as a function of the ship after
  `Player.update`.
- `random.randint` is not modelled. Its results are inputs with range
  preconditions. The asteroid recycling draw is indexed by the asteroid's
  position in the group, and is used only if that asteroid leaves the window.
- pygame's `Rect`, `colliderect`, `spritecollide` and `groupcollide` are
  library code that is not part of this model. They are modelled as described
  above. The zero-size special case of `colliderect` is left out, since every
  rectangle in the game has positive size.
- `all_sprites` is not modelled. It only collects the other groups for
  drawing.
- The `try`/`except`/`finally` around the loop of minishooter/main.py is not
  modelled. It is error reporting and cleanup.
- Sprite identity is not modelled. Sprites are values, so two sprites with the
  same rectangle and speed are indistinguishable. No rule of the game depends
  on telling them apart.
- MiniShooter.Alpha: minishooter/main.py sets no alpha while the ship is not
  invulnerable, so the image keeps its last alpha. The model gives 255. The
  flag clears either in the update that sets 255, or by R after a game over,
  which only a vulnerable, undimmed ship reaches.
- The endless `while running` loop is modelled over a finite list of frames,
  one per pass. The loop stops at the first frame that quits.

## Notes on the code

- In main.py, R clears `invulnerable` but keeps `invulnerable_timer`. A game
  over always follows a hit, so the countdown is 120 at that point, and after R
  it stays 120 with the flag off. The statement that the ship is invulnerable
  exactly while the countdown is positive therefore fails in main.py after a
  restart. It is harmless, because `Player.update` touches the countdown only
  while the flag is set. The main.py invariant (`Shooter.Inv`) states only that
  an invulnerable ship has a positive countdown. The minishooter invariant
  (`MiniShooter.Inv`) states the equivalence, which holds there because its
  fatal hit grants no invulnerability.
- In minishooter/main.py the game over is set by the fatal hit itself, while
  pickups later in the same tick still run. A star caught in that tick gives
  the life back, and the game ends showing one life (`FatalTickPickup`).
  main.py tests the lives only at the end of the tick, so there the same star
  saves the game (`PickupSavesFatalTick`).
- In minishooter/main.py the fatal hit destroys the asteroids it touches and
  replaces none, so a finished game may show fewer than five asteroids.
