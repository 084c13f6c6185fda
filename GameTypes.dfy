/** The data model of include/game.h: the pool capacities, the three
    enumerations and the record types of the game's entities.

    Field names follow the header, except that the header's `type` field
    (a reserved word here) is called `kind`. Positions, sizes, speeds and
    timers are `real`; the header's `float` rounding is not modelled. */
module GameTypes {

  // Pool capacities (include/game.h:6-10).
  const MaxBullets: nat := 30
  const MaxEnemies: nat := 30
  const MaxEnemyBullets: nat := 30
  const MaxPowerups: nat := 5
  const MaxExplosions: nat := 10

  /** The nine movement directions; `None` is the no-move value. */
  datatype Direction =
    | None | Up | Down | Left | Right | UpLeft | UpRight | DownLeft | DownRight

  datatype EnemyType = Small | Medium | Large | Boss

  datatype PowerupType = Health | RapidFire | DoubleBullet

  datatype Player = Player(
    x: real, y: real, width: real, height: real,
    direction: Direction,
    lives: int,
    isRapidFire: bool, isDoubleBullet: bool,
    powerupTimer: real,
    score: int,
    bulletCooldown: real)

  /** Shared by the player's and the enemies' bullets: which way a bullet
      travels is decided by the pool it lives in, not by the record. */
  datatype Bullet = Bullet(
    x: real, y: real, width: real, height: real,
    speed: real,
    active: bool)

  datatype Enemy = Enemy(
    x: real, y: real, width: real, height: real,
    speed: real,
    health: int,
    kind: EnemyType,
    active: bool,
    bulletCooldown: real,
    movementPattern: real,
    score: int)

  datatype Powerup = Powerup(
    x: real, y: real, width: real, height: real,
    kind: PowerupType,
    active: bool,
    speed: real)

  datatype Explosion = Explosion(
    x: real, y: real, width: real, height: real,
    lifespan: real,
    currentLife: real,
    active: bool)

  datatype Level = Level(
    number: int,
    scrollSpeed: real,
    enemySpawnRate: real,
    backgroundOffset: real,
    midgroundOffset: real,
    foregroundOffset: real,
    bossSpawned: bool,
    bossDefeated: bool)

  /** The C enumerator value of a direction (DIR_NONE is 0). */
  function DirectionOrdinal(d: Direction): (n: nat)
    ensures n < 9
    ensures n == 0 <==> d == None
  {
    match d
    case None => 0
    case Up => 1
    case Down => 2
    case Left => 3
    case Right => 4
    case UpLeft => 5
    case UpRight => 6
    case DownLeft => 7
    case DownRight => 8
  }

  /** The C enumerator value of an enemy type. */
  function EnemyTypeOrdinal(t: EnemyType): (n: nat)
    ensures n < 4
  {
    match t
    case Small => 0
    case Medium => 1
    case Large => 2
    case Boss => 3
  }

  /** The C enumerator value of a powerup type. */
  function PowerupOrdinal(t: PowerupType): (n: nat)
    ensures n < 3
  {
    match t
    case Health => 0
    case RapidFire => 1
    case DoubleBullet => 2
  }

  /** The cast `(PowerupType)n`, defined for the three enumerator values. */
  function PowerupFromOrdinal(n: nat): (t: PowerupType)
    requires n < 3
    ensures PowerupOrdinal(t) == n
  {
    if n == 0 then Health else if n == 1 then RapidFire else DoubleBullet
  }

  /** Every powerup type is named by exactly one of 0, 1, 2, so the cast of
      `rand() % 3` is always a valid type and every type can be drawn. */
  lemma PowerupOrdinalRoundTrip(t: PowerupType)
    ensures PowerupFromOrdinal(PowerupOrdinal(t)) == t
  {
  }

  /** Width of each enemy type, as every spawner sets it. */
  function EnemyWidth(t: EnemyType): real
  {
    match t
    case Small => 16.0
    case Medium => 24.0
    case Large => 32.0
    case Boss => 64.0
  }

  /** Height of each enemy type, as every spawner sets it. */
  function EnemyHeight(t: EnemyType): real
  {
    match t
    case Small => 12.0
    case Medium => 16.0
    case Large => 24.0
    case Boss => 48.0
  }

  /** An active enemy has the size of its type. */
  predicate EnemyShaped(e: Enemy)
  {
    e.active ==> e.width == EnemyWidth(e.kind) && e.height == EnemyHeight(e.kind)
  }

  /** Active-flag views of the pools. */
  function BulletFlags(s: seq<Bullet>): (f: seq<bool>)
    ensures |f| == |s|
  {
    seq(|s|, i requires 0 <= i < |s| => s[i].active)
  }

  function EnemyFlags(s: seq<Enemy>): (f: seq<bool>)
    ensures |f| == |s|
  {
    seq(|s|, i requires 0 <= i < |s| => s[i].active)
  }

  function PowerupFlags(s: seq<Powerup>): (f: seq<bool>)
    ensures |f| == |s|
  {
    seq(|s|, i requires 0 <= i < |s| => s[i].active)
  }

  function ExplosionFlags(s: seq<Explosion>): (f: seq<bool>)
    ensures |f| == |s|
  {
    seq(|s|, i requires 0 <= i < |s| => s[i].active)
  }

  /** The pools with every slot switched off and nothing else changed. */
  function ClearBullets(s: seq<Bullet>): (r: seq<Bullet>)
    ensures |r| == |s|
  {
    seq(|s|, i requires 0 <= i < |s| => s[i].(active := false))
  }

  function ClearEnemies(s: seq<Enemy>): (r: seq<Enemy>)
    ensures |r| == |s|
  {
    seq(|s|, i requires 0 <= i < |s| => s[i].(active := false))
  }

  function ClearPowerups(s: seq<Powerup>): (r: seq<Powerup>)
    ensures |r| == |s|
  {
    seq(|s|, i requires 0 <= i < |s| => s[i].(active := false))
  }

  function ClearExplosions(s: seq<Explosion>): (r: seq<Explosion>)
    ensures |r| == |s|
  {
    seq(|s|, i requires 0 <= i < |s| => s[i].(active := false))
  }
}
