/** The whole simulation state as a value (the `GameState` record of
    include/game.h with the benchmark fields src/game.c writes), the
    constants defined at the top of src/game.c, the numeric helpers the C
    code spells out inline, and the invariant every operation keeps. */
module World {
  import opened GameTypes

  /** libc `rand()`: the k-th call made by the game returns `rand(k)`. */
  type Oracle = nat -> nat

  /** `sinf`, left uninterpreted. */
  type Wave = real -> real

  // Constants of src/game.c:7-22 (ENEMY_SPAWN_DELAY is defined there but never used).
  const PlayerSpeed: real := 150.0
  const BulletSpeed: real := 300.0
  const EnemyBulletSpeed: real := 200.0
  const ScreenWidth: real := 480.0
  const ScreenHeight: real := 320.0
  const PlayerWidth: real := 32.0
  const PlayerHeight: real := 16.0
  const BulletWidth: real := 8.0
  const BulletHeight: real := 4.0
  const PowerupWidth: real := 16.0
  const PowerupHeight: real := 16.0
  const PowerupDuration: real := 10.0
  const BulletCooldown: real := 0.5
  const RapidFireCooldown: real := 0.2
  const PowerupSpawnDelay: real := 15.0
  const DiagonalFactor: real := 0.7071067811865476

  /** Lowest and highest y the bullet guns clamp a new shot to:
      BULLET_HEIGHT/2 (integer division, 2) and SCREEN_HEIGHT - BULLET_HEIGHT. */
  const ShotMinY: real := 2.0
  const ShotMaxY: real := 316.0

  datatype World = World(
    player: Player,
    bullets: seq<Bullet>,
    enemies: seq<Enemy>,
    enemyBullets: seq<Bullet>,
    powerups: seq<Powerup>,
    explosions: seq<Explosion>,
    level: Level,
    gameOver: bool,
    paused: bool,
    enemySpawnTimer: real,
    powerupSpawnTimer: real,
    benchmarkMode: bool,
    benchmarkSpawnBand: real,
    draws: nat)    // how many times rand() has been called so far

  /** The C idiom `if (v < lo) v = lo; else if (v > hi) v = hi;`. */
  function Clamp(v: real, lo: real, hi: real): (r: real)
    ensures lo <= hi ==> lo <= r <= hi
    ensures lo <= v <= hi ==> r == v
    ensures r == v || r == lo || r == hi
  {
    if v < lo then lo else if v > hi then hi else v
  }

  /** The C cast `(int)` of a float: truncation toward zero. */
  function Trunc(r: real): (t: int)
    ensures r >= 0.0 ==> t as real <= r < t as real + 1.0
    ensures r >= 1.0 ==> t >= 1
    ensures r < 0.0 ==> r <= t as real < r + 1.0
  {
    if r >= 0.0 then r.Floor else -((-r).Floor)
  }

  /** C's `v % m` for a non-negative `v` (a `rand()` result): the remainder
      lies in [0, |m|). A zero divisor is undefined in C; the model yields 0. */
  function CMod(v: nat, m: int): (r: nat)
    ensures m < 0 ==> r < -m
    ensures m > 0 ==> r < m
  {
    if m == 0 then 0 else v % m
  }

  /** `fabs`. */
  function Abs(r: real): (a: real)
    ensures a >= 0.0 && (a == r || a == -r)
  {
    if r < 0.0 then -r else r
  }

  /** The band fraction as the benchmark code sanitises it before use. */
  function EffectiveBand(b: real): (f: real)
    ensures 0.0 < f <= 1.0
    ensures 0.0 < b <= 1.0 ==> f == b
  {
    var b1 := if b <= 0.0 then 0.10 else b;
    if b1 > 1.0 then 1.0 else b1
  }

  /** The player's clamp region: x in [width/2, 480 - width/2],
      y in [height/2, 320 - height]. */
  predicate PlayerInBounds(p: Player)
  {
    && p.width / 2.0 <= p.x <= ScreenWidth - p.width / 2.0
    && p.height / 2.0 <= p.y <= ScreenHeight - p.height
  }

  /** A timed power is only ever held while its timer runs. */
  predicate PowerupTimed(p: Player)
  {
    p.isRapidFire || p.isDoubleBullet ==> p.powerupTimer > 0.0
  }

  /** An active powerup has the powerup size. */
  predicate PowerupShaped(p: Powerup)
  {
    p.active ==> p.width == PowerupWidth && p.height == PowerupHeight
  }

  /** What every operation of the game keeps: the pools have their fixed
      capacities, the player keeps its size, every active enemy and powerup
      has the size of its kind, the level number is at least 1, and score
      values are never negative. */
  predicate WorldOk(w: World)
  {
    && |w.bullets| == MaxBullets
    && |w.enemies| == MaxEnemies
    && |w.enemyBullets| == MaxEnemyBullets
    && |w.powerups| == MaxPowerups
    && |w.explosions| == MaxExplosions
    && w.player.width == PlayerWidth
    && w.player.height == PlayerHeight
    && w.player.score >= 0
    && w.level.number >= 1
    && (forall i :: 0 <= i < |w.enemies| ==> EnemyShaped(w.enemies[i]))
    && (forall i :: 0 <= i < |w.enemies| ==> w.enemies[i].score >= 0)
    && (forall i :: 0 <= i < |w.powerups| ==> PowerupShaped(w.powerups[i]))
  }
}
