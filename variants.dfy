/** How the two variants of the game relate. They blink the invulnerable ship
    with differently written formulas that compute the same thing, and while
    five asteroids are in play their bullet passes agree. */
module Variants {
  import opened Sprites
  import Shooter
  import MiniShooter

  /** `(t // 5) % 2 == 0` in main.py and `t % 10 < 5` in minishooter/main.py
      pick the same ticks of the blink, for every value of the countdown. */
  lemma FlickerAgrees(s: Ship)
    ensures Shooter.Alpha(s) == MiniShooter.Alpha(s)
  {
  }

  /** On a full field the top-up rule of minishooter/main.py replaces every
      shot asteroid, exactly as main.py does unconditionally. */
  lemma ShootAgrees(s: State, spawns: seq<EnemyDraw>)
    requires |spawns| >= |s.enemies| && EnemyDrawsOk(spawns) && |s.enemies| == ENEMY_COUNT
    ensures MiniShooter.Shoot(s, spawns) == Shooter.Shoot(s, spawns)
    ensures MiniShooter.VolleySpawns(s) == |s.enemies| - |GroupCollide(s.enemies, s.bullets).survivors|
  {
    var c := GroupCollide(s.enemies, s.bullets);
    assert MiniShooter.VolleySpawns(s) == |c.killed|;
  }
}
