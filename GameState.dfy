/** The game state of src/game.c as an object: the GameState struct of
    include/game.h:95-107 (with the benchmark fields src/game.c writes) as a
    class whose five pools are fixed arrays updated in place. Each method
    follows its C function loop by loop and is proved to leave the state
    that the matching function on `World` describes. rand() is the oracle
    `rand` with the count of calls so far; sinf is the opaque `sin`. */
module GameState {
  import opened GameTypes
  import opened Pools
  import opened World
  import opened Spawning
  import opened Motion
  import opened Collisions
  import opened Progression
  import opened Benchmark
  import opened Step

  const BlankPlayer: Player := Player(0.0, 0.0, 0.0, 0.0, Direction.None, 0, false, false, 0.0, 0, 0.0)
  const BlankBullet: Bullet := Bullet(0.0, 0.0, 0.0, 0.0, 0.0, false)
  const BlankEnemy: Enemy := Enemy(0.0, 0.0, 0.0, 0.0, 0.0, 0, Small, false, 0.0, 0.0, 0)
  const BlankPowerup: Powerup := Powerup(0.0, 0.0, 0.0, 0.0, Health, false, 0.0)
  const BlankExplosion: Explosion := Explosion(0.0, 0.0, 0.0, 0.0, 0.0, 0.0, false)

  /** The zero-initialised global `gameState` of src/main.c:18. */
  function Blank(): (w: World)
    ensures PoolsSized(w) && w.draws == 0
  {
    World(BlankPlayer, seq(MaxBullets, _ => BlankBullet), seq(MaxEnemies, _ => BlankEnemy),
          seq(MaxEnemyBullets, _ => BlankBullet), seq(MaxPowerups, _ => BlankPowerup),
          seq(MaxExplosions, _ => BlankExplosion),
          Level(0, 0.0, 0.0, 0.0, 0.0, 0.0, false, false), false, false, 0.0, 0.0, false, 0.0, 0)
  }

  class Game {
    var player: Player
    const bullets: array<Bullet>
    const enemies: array<Enemy>
    const enemyBullets: array<Bullet>
    const powerups: array<Powerup>
    const explosions: array<Explosion>
    var level: Level
    var gameOver: bool
    var paused: bool
    var enemySpawnTimer: real
    var powerupSpawnTimer: real
    var benchmarkMode: bool
    var benchmarkSpawnBand: real
    /** The number of rand() calls made so far. */
    var draws: nat
    /** libc rand(), call by call. */
    const rand: Oracle
    /** sinf. */
    const sin: Wave

    /** The pools have their capacities and are distinct arrays. */
    ghost predicate Valid()
      reads this
    {
      && bullets.Length == MaxBullets && enemies.Length == MaxEnemies
      && enemyBullets.Length == MaxEnemyBullets && powerups.Length == MaxPowerups
      && explosions.Length == MaxExplosions && bullets != enemyBullets
    }

    /** The state as a value. */
    function State(): (w: World)
      reads this, bullets, enemies, enemyBullets, powerups, explosions
      ensures Valid() ==> PoolsSized(w)
    {
      World(player, bullets[..], enemies[..], enemyBullets[..], powerups[..], explosions[..], level,
            gameOver, paused, enemySpawnTimer, powerupSpawnTimer, benchmarkMode, benchmarkSpawnBand, draws)
    }

    /** The global game state before anything has run. */
    constructor (rand: Oracle, sin: Wave)
      ensures Valid() && State() == Blank()
      ensures this.rand == rand && this.sin == sin
      ensures fresh(bullets) && fresh(enemies) && fresh(enemyBullets) && fresh(powerups) && fresh(explosions)
    {
      player := BlankPlayer;
      bullets := new Bullet[MaxBullets](_ => BlankBullet);
      enemies := new Enemy[MaxEnemies](_ => BlankEnemy);
      enemyBullets := new Bullet[MaxEnemyBullets](_ => BlankBullet);
      powerups := new Powerup[MaxPowerups](_ => BlankPowerup);
      explosions := new Explosion[MaxExplosions](_ => BlankExplosion);
      level := Level(0, 0.0, 0.0, 0.0, 0.0, 0.0, false, false);
      gameOver := false;
      paused := false;
      enemySpawnTimer := 0.0;
      powerupSpawnTimer := 0.0;
      benchmarkMode := false;
      benchmarkSpawnBand := 0.0;
      draws := 0;
      this.rand := rand;
      this.sin := sin;
      new;
      assert bullets[..] == seq(MaxBullets, _ => BlankBullet);
      assert enemies[..] == seq(MaxEnemies, _ => BlankEnemy);
      assert enemyBullets[..] == seq(MaxEnemyBullets, _ => BlankBullet);
      assert powerups[..] == seq(MaxPowerups, _ => BlankPowerup);
      assert explosions[..] == seq(MaxExplosions, _ => BlankExplosion);
    }

    /** One call of rand(). */
    method Rand() returns (v: nat)
      modifies `draws
      ensures v == rand(old(draws)) && draws == old(draws) + 1
    {
      v := rand(draws);
      draws := draws + 1;
    }

    /** A pass over a pool clearing every active flag (src/game.c:49-67,
        782-788). */
    static method ClearBulletsPool(a: array<Bullet>)
      modifies a
      ensures a[..] == ClearBullets(old(a[..]))
    {
      for i := 0 to a.Length
        invariant forall j :: 0 <= j < i ==> a[j] == old(a[j]).(active := false)
        invariant forall j :: i <= j < a.Length ==> a[j] == old(a[j])
      {
        a[i] := a[i].(active := false);
      }
    }

    static method ClearEnemiesPool(a: array<Enemy>)
      modifies a
      ensures a[..] == ClearEnemies(old(a[..]))
    {
      for i := 0 to a.Length
        invariant forall j :: 0 <= j < i ==> a[j] == old(a[j]).(active := false)
        invariant forall j :: i <= j < a.Length ==> a[j] == old(a[j])
      {
        a[i] := a[i].(active := false);
      }
    }

    static method ClearPowerupsPool(a: array<Powerup>)
      modifies a
      ensures a[..] == ClearPowerups(old(a[..]))
    {
      for i := 0 to a.Length
        invariant forall j :: 0 <= j < i ==> a[j] == old(a[j]).(active := false)
        invariant forall j :: i <= j < a.Length ==> a[j] == old(a[j])
      {
        a[i] := a[i].(active := false);
      }
    }

    static method ClearExplosionsPool(a: array<Explosion>)
      modifies a
      ensures a[..] == ClearExplosions(old(a[..]))
    {
      for i := 0 to a.Length
        invariant forall j :: 0 <= j < i ==> a[j] == old(a[j]).(active := false)
        invariant forall j :: i <= j < a.Length ==> a[j] == old(a[j])
      {
        a[i] := a[i].(active := false);
      }
    }

    /** The five clearing loops of initGame (src/game.c:49-67). */
    method ClearAllPools()
      requires Valid()
      modifies bullets, enemies, enemyBullets, powerups, explosions
      ensures bullets[..] == ClearBullets(old(bullets[..])) && enemies[..] == ClearEnemies(old(enemies[..]))
      ensures enemyBullets[..] == ClearBullets(old(enemyBullets[..]))
      ensures powerups[..] == ClearPowerups(old(powerups[..]))
      ensures explosions[..] == ClearExplosions(old(explosions[..]))
    {
      ClearBulletsPool(bullets);
      ClearEnemiesPool(enemies);
      ClearBulletsPool(enemyBullets);
      ClearPowerupsPool(powerups);
      ClearExplosionsPool(explosions);
    }

    /** initGame (src/game.c:24-73). */
    method InitGame()
      requires Valid()
      modifies `player, `level, `enemySpawnTimer, `powerupSpawnTimer, `gameOver, `paused, `benchmarkMode,
               `benchmarkSpawnBand, bullets, enemies, enemyBullets, powerups, explosions
      ensures Valid() && State() == Init(old(State()))
    {
      ghost var w := State();
      player := Player(50.0, ScreenHeight / 2.0, PlayerWidth, PlayerHeight, Direction.None, 3,
                       false, false, 0.0, 0, 0.0);
      level := Level(1, 50.0, 3.0, 0.0, 0.0, 0.0, false, false);
      enemySpawnTimer := 0.0;
      powerupSpawnTimer := 0.0;
      ClearAllPools();
      gameOver := false;
      paused := false;
      benchmarkMode := false;
      benchmarkSpawnBand := 0.10;
      ghost var v := Init(w);
      assert v.bullets == bullets[..] && v.enemies == enemies[..] && v.enemyBullets == enemyBullets[..];
      assert v.powerups == powerups[..] && v.explosions == explosions[..];
      assert v.player == player && v.level == level && v.draws == draws;
    }

    /** The upward scan for an inactive slot shared by the allocating
        functions of src/game.c (lines 218-219, 256-257, 432-433, 450-451,
        476-477, 548-549, 575-576, 602-603): the lowest free slot at or after
        `from`, or the pool's length when there is none. */
    static method FreeBullet(a: array<Bullet>, from: nat) returns (i: nat)
      requires from <= a.Length
      ensures i == FirstFreeFrom(BulletFlags(a[..]), from)
      ensures from <= i <= a.Length && (i < a.Length ==> !a[i].active)
      ensures forall k :: from <= k < i ==> a[k].active
    {
      i := from;
      while i < a.Length && a[i].active
        invariant from <= i <= a.Length
        invariant forall k :: from <= k < i ==> a[k].active
      {
        i := i + 1;
      }
      FirstFreeUnique(BulletFlags(a[..]), from, i);
    }

    static method FreeEnemy(a: array<Enemy>) returns (i: nat)
      ensures i == FirstFreeFrom(EnemyFlags(a[..]), 0)
      ensures i <= a.Length && (i < a.Length ==> !a[i].active)
      ensures forall k :: 0 <= k < i ==> a[k].active
    {
      i := 0;
      while i < a.Length && a[i].active
        invariant i <= a.Length
        invariant forall k :: 0 <= k < i ==> a[k].active
      {
        i := i + 1;
      }
      FirstFreeUnique(EnemyFlags(a[..]), 0, i);
    }

    static method FreePowerup(a: array<Powerup>) returns (i: nat)
      ensures i == FirstFreeFrom(PowerupFlags(a[..]), 0)
      ensures i <= a.Length && (i < a.Length ==> !a[i].active)
      ensures forall k :: 0 <= k < i ==> a[k].active
    {
      i := 0;
      while i < a.Length && a[i].active
        invariant i <= a.Length
        invariant forall k :: 0 <= k < i ==> a[k].active
      {
        i := i + 1;
      }
      FirstFreeUnique(PowerupFlags(a[..]), 0, i);
    }

    static method FreeExplosion(a: array<Explosion>) returns (i: nat)
      ensures i == FirstFreeFrom(ExplosionFlags(a[..]), 0)
      ensures i <= a.Length && (i < a.Length ==> !a[i].active)
      ensures forall k :: 0 <= k < i ==> a[k].active
    {
      i := 0;
      while i < a.Length && a[i].active
        invariant i <= a.Length
        invariant forall k :: 0 <= k < i ==> a[k].active
      {
        i := i + 1;
      }
      FirstFreeUnique(ExplosionFlags(a[..]), 0, i);
    }

    /** The slot loops of fireBullet (src/game.c:432-472): a bullet in the
        lowest free slot and, with the double-bullet power, a second one in
        the next free slot after it. */
    static method PlaceShotsPool(a: array<Bullet>, x: real, y: real, double: bool)
      modifies a
      ensures a[..] == PlaceShots(old(a[..]), x, y, double)
    {
      ghost var s := a[..];
      var i := FreeBullet(a, 0);
      if i < a.Length {
        a[i] := PlayerShot(x, y);
        ghost var s1 := s[i := PlayerShot(x, y)];
        assert a[..] == s1;
        if double {
          var j := FreeBullet(a, i + 1);
          if j < a.Length {
            a[j] := PlayerShot(x, y - 10.0);
            assert a[..] == s1[j := PlayerShot(x, y - 10.0)];
          }
        }
      }
    }

    /** fireBullet (src/game.c:425-473). */
    method FireBullet()
      requires Valid()
      modifies `player, bullets
      ensures Valid() && State() == Fire(old(State()))
    {
      if player.bulletCooldown > 0.0 {
        return;
      }
      ghost var v := Fire(State());
      player := player.(bulletCooldown := if player.isRapidFire then RapidFireCooldown else BulletCooldown);
      PlaceShotsPool(bullets, player.x + player.width / 2.0, player.y, player.isDoubleBullet);
      assert v.bullets == bullets[..] && v.player == player;
    }

    /** The enemy spawnEnemy writes into slot `i` (src/game.c:477-542), with
        its rand() calls. */
    method FillEnemy(i: nat, t: EnemyType)
      requires Valid() && i < enemies.Length
      modifies `draws, enemies
      ensures Valid()
      ensures var n := NewEnemy(old(enemies[i]), t, level.number, rand, old(draws));
              enemies[..] == old(enemies[..])[i := n.0] && draws == n.1
    {
      ghost var n := NewEnemy(enemies[i], t, level.number, rand, draws);
      var e := enemies[i];
      e := e.(x := ScreenWidth + 20.0);
      var enemyHeight := EnemyHeight(t);
      var minY := enemyHeight / 2.0;
      var maxY := ScreenHeight - enemyHeight;
      var r := Rand();
      e := e.(y := (r % Trunc(maxY - minY)) as real + minY, active := true, kind := t);
      r := Rand();
      e := e.(movementPattern := (r % 628) as real / 100.0);
      var number := level.number as real;
      match t {
        case Small =>
          e := e.(width := 16.0, height := 12.0, speed := 80.0 + number * 5.0, health := 1, score := 30);
        case Medium =>
          e := e.(width := 24.0, height := 16.0, speed := 60.0 + number * 3.0, health := 2, score := 50);
        case Large =>
          e := e.(width := 32.0, height := 24.0, speed := 40.0 + number * 2.0, health := 3, score := 150);
          r := Rand();
          e := e.(bulletCooldown := (r % 3) as real + 1.0);
        case Boss =>
          e := e.(width := 64.0, height := 48.0, speed := 20.0, health := 10 + level.number * 5,
                  score := 200 * level.number, movementPattern := 0.0);
      }
      assert e == n.0;
      enemies[i] := e;
    }

    /** spawnEnemy (src/game.c:475-545). */
    method SpawnEnemy(t: EnemyType)
      requires Valid()
      modifies `draws, enemies
      ensures Valid() && State() == Spawning.SpawnEnemy(old(State()), t, rand)
    {
      var i := FreeEnemy(enemies);
      if i < enemies.Length {
        FillEnemy(i, t);
      }
    }

    /** spawnBoss (src/game.c:547-572). */
    method SpawnBoss()
      requires Valid()
      modifies enemies
      ensures Valid() && State() == Spawning.SpawnBoss(old(State()))
    {
      var i := FreeEnemy(enemies);
      if i < enemies.Length {
        var bossWidth := 64.0;
        var bossHeight := 48.0;
        var bossX := ScreenWidth - bossWidth;
        var half := ScreenWidth / 2.0;
        if bossX < half {
          bossX := half;
        }
        enemies[i] := Enemy(bossX, ScreenHeight / 2.0, bossWidth, bossHeight, 20.0, 10 + level.number * 5, Boss,
                            true, 1.0, 0.0, 100 * level.number);
      }
    }

    /** spawnPowerup (src/game.c:574-599). */
    method SpawnPowerup(x: real, y: real)
      requires Valid()
      modifies `draws, powerups
      ensures Valid()
      ensures var d := Spawning.SpawnPowerup(old(powerups[..]), player.lives, x, y, rand, old(draws));
              powerups[..] == d.0 && draws == d.1
    {
      var i := FreePowerup(powerups);
      if i < powerups.Length {
        var y1 := y;
        if y1 < 8.0 {
          y1 := 8.0;
        } else if y1 > ScreenHeight - PowerupHeight {
          y1 := ScreenHeight - PowerupHeight;
        }
        var t := Rand();
        var kind := PowerupFromOrdinal(t % 3);
        if player.lives < 3 {
          var r := Rand();
          if r % 100 < 40 {
            kind := Health;
          }
        }
        powerups[i] := Powerup(x, y1, PowerupWidth, PowerupHeight, kind, true, 60.0);
      }
    }

    /** createExplosion (src/game.c:601-626). */
    method CreateExplosion(x: real, y: real, size: real)
      requires Valid()
      modifies explosions
      ensures Valid() && explosions[..] == Spawning.CreateExplosion(old(explosions[..]), x, y, size)
    {
      var i := FreeExplosion(explosions);
      if i < explosions.Length {
        var x1 := x;
        if x1 < size / 2.0 {
          x1 := size / 2.0;
        } else if x1 > ScreenWidth - size / 2.0 {
          x1 := ScreenWidth - size / 2.0;
        }
        var y1 := y;
        if y1 < size / 2.0 {
          y1 := size / 2.0;
        } else if y1 > ScreenHeight - size {
          y1 := ScreenHeight - size;
        }
        explosions[i] := Explosion(x1, y1, size, size, 0.5, 0.5, true);
      }
    }

    /** nextLevel (src/game.c:772-792). */
    method NextLevel()
      requires Valid()
      modifies `level, `enemySpawnTimer, `powerupSpawnTimer, enemies, enemyBullets
      ensures Valid() && State() == Progression.NextLevel(old(State()))
    {
      level := level.(number := level.number + 1, bossSpawned := false, bossDefeated := false,
                      scrollSpeed := level.scrollSpeed + 5.0, enemySpawnRate := level.enemySpawnRate * 0.6);
      if level.enemySpawnRate < 1.0 {
        level := level.(enemySpawnRate := 1.0);
      }
      ClearEnemiesPool(enemies);
      ClearBulletsPool(enemyBullets);
      enemySpawnTimer := 2.0;
      powerupSpawnTimer := PowerupSpawnDelay / 2.0;
    }

    // ----- updateGame, phase by phase -----

    /** The player's move in its direction (src/game.c:82-113). */
    method Steer(dt: real)
      modifies `player
      ensures var v := Displacement(old(player).direction, dt);
              player == old(player).(x := old(player).x + v.0, y := old(player).y + v.1)
    {
      var diagonalFactor := DiagonalFactor;
      match player.direction {
        case Up => player := player.(y := player.y - PlayerSpeed * dt);
        case Down => player := player.(y := player.y + PlayerSpeed * dt);
        case Left => player := player.(x := player.x - PlayerSpeed * dt);
        case Right => player := player.(x := player.x + PlayerSpeed * dt);
        case UpLeft =>
          player := player.(y := player.y - PlayerSpeed * diagonalFactor * dt);
          player := player.(x := player.x - PlayerSpeed * diagonalFactor * dt);
        case UpRight =>
          player := player.(y := player.y - PlayerSpeed * diagonalFactor * dt);
          player := player.(x := player.x + PlayerSpeed * diagonalFactor * dt);
        case DownLeft =>
          player := player.(y := player.y + PlayerSpeed * diagonalFactor * dt);
          player := player.(x := player.x - PlayerSpeed * diagonalFactor * dt);
        case DownRight =>
          player := player.(y := player.y + PlayerSpeed * diagonalFactor * dt);
          player := player.(x := player.x + PlayerSpeed * diagonalFactor * dt);
        case None =>
      }
    }

    /** The player's move and screen clamp (src/game.c:82-129). */
    method MovePlayer(dt: real)
      modifies `player
      ensures player == Motion.MovePlayer(old(player), dt)
    {
      Steer(dt);
      var halfWidth := player.width * 0.5;
      var halfHeight := player.height * 0.5;
      if player.x < halfWidth {
        player := player.(x := halfWidth);
      } else if player.x > ScreenWidth - halfWidth {
        player := player.(x := ScreenWidth - halfWidth);
      }
      if player.y < halfHeight {
        player := player.(y := halfHeight);
      } else if player.y > ScreenHeight - player.height {
        player := player.(y := ScreenHeight - player.height);
      }
    }

    /** The bullet cooldown and power-up timer ticks (src/game.c:131-141). */
    method TickPlayerTimers(dt: real)
      modifies `player
      ensures player == TickTimers(old(player), dt)
    {
      if player.bulletCooldown > 0.0 {
        player := player.(bulletCooldown := player.bulletCooldown - dt);
      }
      if player.powerupTimer > 0.0 {
        player := player.(powerupTimer := player.powerupTimer - dt);
        if player.powerupTimer <= 0.0 {
          player := player.(isRapidFire := false, isDoubleBullet := false);
        }
      }
    }

    /** The y a benchmark bullet re-enters at, from one rand() call
        (src/game.c:152-154, 157-159, 180-182). */
    method ReentryY() returns (y: real)
      modifies `draws
      ensures y == ReentryShotY(rand(old(draws))) && draws == old(draws) + 1
    {
      var minY := BulletHeight / 2.0;
      var maxY := ScreenHeight - BulletHeight;
      var r := Rand();
      assert Trunc(maxY - minY + 1.0) == 315;
      y := minY + (r % Trunc(maxY - minY + 1.0)) as real;
    }

    /** One player bullet's frame (src/game.c:144-170). */
    method MoveBullet(b: Bullet, dt: real) returns (r: Bullet)
      requires b.active
      modifies `draws
      ensures (r, draws) == StepShot(b, Players, dt, benchmarkMode, rand, old(draws))
    {
      ghost var m := StepShot(b, Players, dt, benchmarkMode, rand, draws);
      var x := b.x + b.speed * dt;
      r := b.(x := x);
      if benchmarkMode {
        if b.speed < 0.0 && x < -b.width {
          var y := ReentryY();
          r := r.(x := ScreenWidth - b.width / 2.0, y := y);
        } else if b.speed > 0.0 && x > ScreenWidth + b.width {
          var y := ReentryY();
          r := r.(x := b.width / 2.0, y := y);
        }
      } else {
        if x > ScreenWidth + b.width {
          r := r.(active := false);
        }
        if b.y < -b.height || b.y > ScreenHeight + b.height {
          r := r.(active := false);
        }
      }
      assert r == m.0 && draws == m.1;
    }

    /** The player-bullet loop (src/game.c:143-171). */
    method MoveBullets(dt: real)
      requires Valid()
      modifies `draws, bullets
      ensures var r := StepShots(old(bullets[..]), Players, dt, benchmarkMode, rand, old(draws), bullets.Length);
              bullets[..] == r.0 && draws == r.1
    {
      ghost var s := bullets[..];
      ghost var k := draws;
      for i := 0 to bullets.Length
        invariant (bullets[..], draws) == StepShots(s, Players, dt, benchmarkMode, rand, k, i)
      {
        ghost var pre := bullets[..];
        ghost var t := StepShot(bullets[i], Players, dt, benchmarkMode, rand, draws);
        assert StepShots(s, Players, dt, benchmarkMode, rand, k, i + 1) == (pre[i := t.0], t.1);
        if bullets[i].active {
          bullets[i] := MoveBullet(bullets[i], dt);
        } else {
          assert pre[i := t.0] == pre;
        }
      }
    }

    /** One enemy bullet's frame (src/game.c:174-193). */
    method MoveEnemyBullet(b: Bullet, dt: real) returns (r: Bullet)
      requires b.active
      modifies `draws
      ensures (r, draws) == StepShot(b, Enemies, dt, benchmarkMode, rand, old(draws))
    {
      ghost var m := StepShot(b, Enemies, dt, benchmarkMode, rand, draws);
      var x := b.x - b.speed * dt;
      r := b.(x := x);
      if benchmarkMode {
        if x < -b.width {
          var y := ReentryY();
          r := r.(x := ScreenWidth - b.width / 2.0, y := y);
        }
      } else {
        if x < -b.width {
          r := r.(active := false);
        }
        if b.y < -b.height || b.y > ScreenHeight + b.height {
          r := r.(active := false);
        }
      }
      assert r == m.0 && draws == m.1;
    }

    /** The enemy-bullet loop (src/game.c:173-194). */
    method MoveEnemyBullets(dt: real)
      requires Valid()
      modifies `draws, enemyBullets
      ensures var r := StepShots(old(enemyBullets[..]), Enemies, dt, benchmarkMode, rand, old(draws), enemyBullets.Length);
              enemyBullets[..] == r.0 && draws == r.1
    {
      ghost var s := enemyBullets[..];
      ghost var k := draws;
      for i := 0 to enemyBullets.Length
        invariant (enemyBullets[..], draws) == StepShots(s, Enemies, dt, benchmarkMode, rand, k, i)
      {
        ghost var pre := enemyBullets[..];
        ghost var t := StepShot(enemyBullets[i], Enemies, dt, benchmarkMode, rand, draws);
        assert StepShots(s, Enemies, dt, benchmarkMode, rand, k, i + 1) == (pre[i := t.0], t.1);
        if enemyBullets[i].active {
          enemyBullets[i] := MoveEnemyBullet(enemyBullets[i], dt);
        } else {
          assert pre[i := t.0] == pre;
        }
      }
    }

    /** An enemy's shot from (x, y) (src/game.c:218-237, 256-274): the
        lowest free enemy-bullet slot, if any, gets the bullet. */
    method EnemyFire(x: real, y: real) returns (fired: bool)
      requires Valid()
      modifies enemyBullets
      ensures (enemyBullets[..], fired) == EnemyShot(old(enemyBullets[..]), x, y)
    {
      var j := FreeBullet(enemyBullets, 0);
      fired := j < enemyBullets.Length;
      if fired {
        var bulletY := y;
        if bulletY < BulletHeight / 2.0 {
          bulletY := BulletHeight / 2.0;
        } else if bulletY > ScreenHeight - BulletHeight {
          bulletY := ScreenHeight - BulletHeight;
        }
        enemyBullets[j] := Bullet(x - enemyBullets[j].width, bulletY, BulletWidth, BulletHeight, EnemyBulletSpeed, true);
      }
    }

    /** The boss's volley (src/game.c:255-275): one shot at each of
        y - 20, y and y + 20. */
    method BossFire(x: real, y: real)
      requires Valid()
      modifies enemyBullets
      ensures enemyBullets[..] == BossVolley(old(enemyBullets[..]), x, y)
    {
      ghost var s := enemyBullets[..];
      ghost var s1 := EnemyShot(s, x, y - 20.0).0;
      ghost var s2 := EnemyShot(s1, x, y).0;
      for b := 0 to 3
        invariant b == 0 ==> enemyBullets[..] == s
        invariant b == 1 ==> enemyBullets[..] == s1
        invariant b == 2 ==> enemyBullets[..] == s2
        invariant b == 3 ==> enemyBullets[..] == BossVolley(s, x, y)
      {
        var _ := EnemyFire(x, y + (b - 1) as real * 20.0);
      }
    }

    /** What an enemy's type makes it do after its horizontal move
        (src/game.c:200-279); the enemy is the local copy `e`. */
    method Manoeuvre(e: Enemy, dt: real) returns (r: Enemy)
      requires Valid()
      modifies `draws, enemyBullets
      ensures (r, enemyBullets[..], draws) == Motion.Manoeuvre(e, old(enemyBullets[..]), dt, rand, sin, old(draws))
    {
      match e.kind {
        case Small =>
          var mp := e.movementPattern + 3.0 * dt;
          r := e.(movementPattern := mp, y := e.y + sin(mp) * 1.5);
        case Medium =>
          r := Wander(e, dt);
        case Large =>
          r := e.(bulletCooldown := e.bulletCooldown - dt);
          if r.bulletCooldown <= 0.0 {
            var fired := EnemyFire(r.x, r.y);
            if fired {
              r := r.(bulletCooldown := 2.0);
            }
          }
        case Boss =>
          r := BossPattern(e, dt);
      }
    }

    /** A medium enemy's drift (src/game.c:205-214): when its turn timer
        runs out it draws a new direction and a new timer of 1 to 3 seconds. */
    method Wander(e: Enemy, dt: real) returns (r: Enemy)
      requires e.kind == Medium
      modifies `draws
      ensures (r, draws) == (Motion.Manoeuvre(e, enemyBullets[..], dt, rand, sin, old(draws)).0,
                             Motion.Manoeuvre(e, enemyBullets[..], dt, rand, sin, old(draws)).2)
    {
      ghost var m := Motion.Manoeuvre(e, enemyBullets[..], dt, rand, sin, draws);
      var mp := e.movementPattern - dt;
      var speed := e.speed;
      if mp <= 0.0 {
        var v := Rand();
        speed := if v % 2 == 0 then Abs(e.speed) else -Abs(e.speed);
        v := Rand();
        mp := (v % 3) as real + 1.0;
      }
      r := e.(speed := speed, movementPattern := mp, y := e.y + speed * 0.3 * dt);
      assert r == m.0 && draws == m.2;
    }

    /** The boss's sweep over the screen's middle and its volley once a
        second (src/game.c:240-278). */
    method BossPattern(e: Enemy, dt: real) returns (r: Enemy)
      requires Valid() && e.kind == Boss
      modifies enemyBullets
      ensures (r, enemyBullets[..]) == (Motion.Manoeuvre(e, old(enemyBullets[..]), dt, rand, sin, draws).0,
                                        Motion.Manoeuvre(e, old(enemyBullets[..]), dt, rand, sin, draws).1)
    {
      var mp := e.movementPattern + dt;
      var third := (ScreenHeight.Floor / 3) as real;
      assert third == 106.0;
      var newY := ScreenHeight / 2.0 + sin(mp) * third;
      if newY < e.height / 2.0 {
        newY := e.height / 2.0;
      } else if newY > ScreenHeight - e.height {
        newY := ScreenHeight - e.height;
      }
      r := e.(movementPattern := mp, y := newY, bulletCooldown := e.bulletCooldown - dt);
      if r.bulletCooldown <= 0.0 {
        BossFire(r.x, r.y);
        r := r.(bulletCooldown := 1.0);
      }
    }

    /** The vertical clamp and the boss's hold on the right half
        (src/game.c:281-301). */
    method KeepOnScreen(e: Enemy) returns (r: Enemy)
      ensures r == HoldBoss(ClampEnemyY(e), benchmarkMode)
    {
      r := e;
      if r.y < r.height / 2.0 {
        r := r.(y := r.height / 2.0);
        if r.kind == Medium {
          r := r.(speed := Abs(r.speed));
        }
      } else if r.y > ScreenHeight - r.height {
        r := r.(y := ScreenHeight - r.height);
        if r.kind == Medium {
          r := r.(speed := -Abs(r.speed));
        }
      }
      if r.kind == Boss && !benchmarkMode {
        if r.x < ScreenWidth / 2.0 {
          r := r.(x := ScreenWidth / 2.0);
        } else if r.x > ScreenWidth - r.width / 2.0 {
          r := r.(x := ScreenWidth - r.width / 2.0);
        }
      }
    }

    /** Leaving the screen (src/game.c:303-326). */
    method LeaveScreen(e: Enemy) returns (r: Enemy)
      modifies `draws
      ensures (r, draws) == Recycle(e, benchmarkMode, benchmarkSpawnBand, rand, old(draws))
    {
      r := e;
      if !benchmarkMode {
        if e.x < -e.width && e.kind != Boss {
          r := e.(active := false);
        }
      } else if e.x < -e.width * 0.25 {
        r := Reenter(e);
      }
    }

    /** The benchmark's wrap-around (src/game.c:308-325): the enemy comes
        back from the right edge, shifted left by a random amount inside the
        spawn band, at a random height and phase. */
    method Reenter(e: Enemy) returns (r: Enemy)
      requires benchmarkMode && e.x < -e.width * 0.25
      modifies `draws
      ensures (r, draws) == Recycle(e, benchmarkMode, benchmarkSpawnBand, rand, old(draws))
    {
      ghost var m := Recycle(e, benchmarkMode, benchmarkSpawnBand, rand, draws);
      var minY := e.height / 2.0;
      var maxY := ScreenHeight - e.height;
      var bandFrac := benchmarkSpawnBand;
      if bandFrac <= 0.0 {
        bandFrac := 0.10;
      }
      if bandFrac > 1.0 {
        bandFrac := 1.0;
      }
      assert bandFrac == EffectiveBand(benchmarkSpawnBand);
      var v := Rand();
      var jitter := CMod(v, Trunc(ScreenWidth * bandFrac + 1.0));
      v := Rand();
      var y := minY + CMod(v, Trunc(maxY - minY + 1.0)) as real;
      v := Rand();
      r := e.(x := (ScreenWidth - e.width / 2.0) - jitter as real, y := y, movementPattern := (v % 628) as real / 100.0);
      if e.kind == Large || e.kind == Boss {
        v := Rand();
        r := r.(bulletCooldown := (v % 3) as real * 0.5 + 0.2);
      }
      assert r == m.0 && draws == m.1;
    }

    /** Enemy slot `i`'s frame of updateGame (src/game.c:196-328). */
    method StepEnemy(e: Enemy, dt: real) returns (r: Enemy)
      requires Valid()
      modifies `draws, enemyBullets
      ensures (r, enemyBullets[..], draws) ==
              Settled(Motion.Manoeuvre(Advance(e, dt), old(enemyBullets[..]), dt, rand, sin, old(draws)),
                      benchmarkMode, benchmarkSpawnBand, rand)
    {
      r := Manoeuvre(Advance(e, dt), dt);
      ghost var moved := (r, enemyBullets[..], draws);
      r := Settle(r);
      assert Settled(moved, benchmarkMode, benchmarkSpawnBand, rand) == (r, moved.1, draws);
    }

    /** The end of an enemy's frame: kept on screen, then recycled or
        retired once it has left (src/game.c:281-326). */
    method Settle(e: Enemy) returns (r: Enemy)
      modifies `draws
      ensures var c := Settled((e, [], old(draws)), benchmarkMode, benchmarkSpawnBand, rand);
              r == c.0 && draws == c.2
    {
      r := KeepOnScreen(e);
      r := LeaveScreen(r);
    }

    /** The enemy loop of updateGame (src/game.c:196-328). */
    method MoveEnemies(dt: real)
      requires Valid()
      modifies `draws, enemies, enemyBullets
      ensures Valid()
      ensures var r := StepEnemies(old(State()), dt, rand, sin, enemies.Length);
              enemies[..] == r.enemies && enemyBullets[..] == r.enemyBullets && draws == r.draws
    {
      ghost var w := State();
      for i := 0 to enemies.Length
        invariant Valid() && State() == StepEnemies(w, dt, rand, sin, i)
      {
        StepSlot(i, dt);
      }
    }

    /** Enemy slot `i`'s turn in the enemy loop. */
    method StepSlot(i: nat, dt: real)
      requires Valid() && i < enemies.Length
      modifies `draws, enemies, enemyBullets
      ensures Valid() && State() == StepEnemyAt(old(State()), i, dt, rand, sin)
    {
      ghost var w := State();
      ghost var shots, k := enemyBullets[..], draws;
      var e := enemies[i];
      if e.active {
        var r := StepEnemy(e, dt);
        StepEnemyAtActive(w, i, dt, rand, sin, e, shots, k, (r, enemyBullets[..], draws));
        ghost var shots1 := enemyBullets[..];
        enemies[i] := r;
        assert enemyBullets[..] == shots1;
        assert enemies[..] == w.enemies[i := r];
      }
    }

    /** One powerup's frame (src/game.c:331-353). */
    method MovePowerup(p: Powerup, dt: real) returns (r: Powerup)
      requires p.active
      modifies `draws
      ensures (r, draws) == StepPowerup(p, dt, benchmarkMode, rand, old(draws))
    {
      ghost var m := StepPowerup(p, dt, benchmarkMode, rand, draws);
      var y := p.y;
      if y < p.height / 2.0 {
        y := p.height / 2.0;
      } else if y > ScreenHeight - p.height {
        y := ScreenHeight - p.height;
      }
      r := p.(x := p.x - p.speed * dt, y := y);
      if r.x < -p.width {
        if !benchmarkMode {
          r := r.(active := false);
        } else {
          var minY := p.height / 2.0;
          var maxY := ScreenHeight - p.height;
          var v := Rand();
          var dy := CMod(v, Trunc(maxY - minY + 1.0));
          v := Rand();
          r := r.(x := ScreenWidth - p.width / 2.0, y := minY + dy as real, kind := PowerupFromOrdinal(v % 3));
        }
      }
      assert r == m.0 && draws == m.1;
    }

    /** The powerup loop (src/game.c:330-354). */
    method MovePowerups(dt: real)
      requires Valid()
      modifies `draws, powerups
      ensures var r := StepPowerups(old(powerups[..]), dt, benchmarkMode, rand, old(draws), powerups.Length);
              powerups[..] == r.0 && draws == r.1
    {
      ghost var s := powerups[..];
      ghost var k := draws;
      for i := 0 to powerups.Length
        invariant (powerups[..], draws) == StepPowerups(s, dt, benchmarkMode, rand, k, i)
      {
        ghost var pre := powerups[..];
        ghost var t := StepPowerup(powerups[i], dt, benchmarkMode, rand, draws);
        assert StepPowerups(s, dt, benchmarkMode, rand, k, i + 1) == (pre[i := t.0], t.1);
        if powerups[i].active {
          powerups[i] := MovePowerup(powerups[i], dt);
        } else {
          assert pre[i := t.0] == pre;
        }
      }
    }

    /** The explosion loop (src/game.c:356-369). */
    method TickExplosionsPass(dt: real)
      requires Valid()
      modifies explosions
      ensures explosions[..] == TickExplosions(old(explosions[..]), dt, benchmarkMode)
    {
      for i := 0 to explosions.Length
        invariant forall j :: 0 <= j < i ==> explosions[j] == TickExplosion(old(explosions[j]), dt, benchmarkMode)
        invariant forall j :: i <= j < explosions.Length ==> explosions[j] == old(explosions[j])
      {
        var e := explosions[i];
        if e.active {
          e := e.(currentLife := e.currentLife - dt);
          if e.currentLife <= 0.0 {
            if benchmarkMode {
              e := e.(currentLife := e.lifespan);
            } else {
              e := e.(active := false);
            }
          }
          explosions[i] := e;
        }
      }
    }

    /** The player's move, its timers and both bullet loops
        (src/game.c:82-194). */
    method MoveShotsPhase(dt: real)
      requires Valid()
      modifies `player, `draws, bullets, enemyBullets
      ensures var b := StepShots(old(bullets[..]), Players, dt, benchmarkMode, rand, old(draws), bullets.Length);
              var eb := StepShots(old(enemyBullets[..]), Enemies, dt, benchmarkMode, rand, b.1, enemyBullets.Length);
              && player == TickTimers(Motion.MovePlayer(old(player), dt), dt)
              && bullets[..] == b.0 && enemyBullets[..] == eb.0 && draws == eb.1
    {
      MovePlayer(dt);
      TickPlayerTimers(dt);
      MoveBullets(dt);
      MoveEnemyBullets(dt);
    }

    /** The powerup and explosion loops (src/game.c:330-369). */
    method MoveItemsPhase(dt: real)
      requires Valid()
      modifies `draws, powerups, explosions
      ensures var r := Motion.MoveItems(old(State()), dt, rand);
              powerups[..] == r.powerups && explosions[..] == r.explosions && draws == r.draws
    {
      MovePowerups(dt);
      TickExplosionsPass(dt);
    }

    /** The enemy spawn timer (src/game.c:371-392). */
    method EnemyTimerStep(dt: real)
      requires Valid()
      modifies `enemySpawnTimer, `level, `draws, enemies
      ensures Valid() && State() == EnemyTimer(old(State()), dt, rand)
    {
      ghost var w := State();
      enemySpawnTimer := enemySpawnTimer - dt;
      ghost var w0 := State();
      assert w0 == w.(enemySpawnTimer := w.enemySpawnTimer - dt);
      if enemySpawnTimer <= 0.0 && !level.bossSpawned {
        if player.score >= level.number * 10 {
          assert EnemyTimer(w, dt, rand) == BossArrival(w0);
          BossArrives();
        } else {
          assert EnemyTimer(w, dt, rand) == RegularArrival(w0, rand);
          RegularArrives();
        }
      }
    }

    /** The boss's arrival (src/game.c:374-376). */
    method BossArrives()
      requires Valid()
      modifies `level, enemies
      ensures Valid() && State() == BossArrival(old(State()))
    {
      ghost var v := BossArrival(State());
      SpawnBoss();
      level := level.(bossSpawned := true);
      assert enemies[..] == v.enemies;
      assert level == v.level;
    }

    /** A regular enemy's arrival (src/game.c:377-390). */
    method RegularArrives()
      requires Valid()
      modifies `enemySpawnTimer, `draws, enemies
      ensures Valid() && State() == RegularArrival(old(State()), rand)
    {
      ghost var w := State();
      var t := Rand();
      ghost var w1 := State();
      assert w1 == w.(draws := w.draws + 1);
      SpawnEnemy(SpawnType(t % 100));
      ghost var e := State();
      assert e == Spawning.SpawnEnemy(w1, SpawnType(rand(w.draws) % 100), rand);
      enemySpawnTimer := level.enemySpawnRate;
      assert State() == e.(enemySpawnTimer := w.level.enemySpawnRate);
    }

    /** The powerup spawn timer (src/game.c:394-406). */
    method PowerupTimerStep(dt: real)
      requires Valid()
      modifies `powerupSpawnTimer, `draws, powerups
      ensures Valid()
      ensures var r := PowerupTimer(old(State()), dt, rand);
              powerups[..] == r.powerups && powerupSpawnTimer == r.powerupSpawnTimer && draws == r.draws
    {
      powerupSpawnTimer := powerupSpawnTimer - dt;
      if powerupSpawnTimer <= 0.0 {
        OfferPowerup();
        powerupSpawnTimer := PowerupSpawnDelay;
      }
    }

    /** A timed powerup at the right edge at a random height
        (src/game.c:396-405); the lower bound of the height is the integer
        division POWERUP_HEIGHT / 2. */
    method OfferPowerup()
      requires Valid()
      modifies `draws, powerups
      ensures Valid()
      ensures var y := CMod(rand(old(draws)), Trunc(ScreenHeight - PowerupHeight - 8.0)) as real + 8.0;
              var d := Spawning.SpawnPowerup(old(powerups[..]), player.lives, ScreenWidth, y, rand, old(draws) + 1);
              powerups[..] == d.0 && draws == d.1
    {
      var x := ScreenWidth;
      var minY := (PowerupHeight.Floor / 2) as real;
      assert minY == 8.0;
      var maxY := ScreenHeight - PowerupHeight;
      var v := Rand();
      var y := CMod(v, Trunc(maxY - minY)) as real + minY;
      SpawnPowerup(x, y);
    }

    /** The parallax scroll (src/game.c:408-410). */
    method ScrollLayers(dt: real)
      modifies `level
      ensures level == Scroll(old(level), dt)
    {
      level := level.(backgroundOffset := level.backgroundOffset + level.scrollSpeed * 0.3 * dt);
      level := level.(midgroundOffset := level.midgroundOffset + level.scrollSpeed * 0.7 * dt);
      level := level.(foregroundOffset := level.foregroundOffset + level.scrollSpeed * 1.4 * dt);
    }

    // ----- handleCollisions, pass by pass -----

    /** What the first collision pass reads and writes, as a `Fight`. */
    function FightNow(): (f: Fight)
      reads this, bullets, enemies, explosions, powerups
      ensures f.score == player.score && f.bossDefeated == level.bossDefeated && f.draws == draws
    {
      Fight(bullets[..], enemies[..], player.score, level.bossDefeated, explosions[..], powerups[..], draws)
    }

    /** The activeEnemies list built before the first pass
        (src/game.c:637-644), in a fresh array of MAX_ENEMIES entries. */
    method ActiveList() returns (list: array<nat>, count: nat)
      requires Valid()
      ensures fresh(list) && list.Length == MaxEnemies
      ensures count <= list.Length && list[..count] == ActiveIndices(enemies[..])
    {
      list := new nat[MaxEnemies];
      count := 0;
      for j := 0 to enemies.Length
        invariant count <= j
        invariant list[..count] == ActiveIndices(enemies[..j])
      {
        assert enemies[..j + 1][..j] == enemies[..j];
        if enemies[j].active {
          list[count] := j;
          assert list[..count + 1] == list[..count] + [j];
          count := count + 1;
        }
      }
      assert enemies[..enemies.Length] == enemies[..];
    }

    /** The scan of the list for bullet `b` (src/game.c:656-693): the first
        listed entry that touches the bullet, whether or not it died earlier
        in the pass. */
    method FindTarget(b: Bullet, list: array<nat>, count: nat) returns (r: Scan)
      requires count <= list.Length
      requires forall p :: 0 <= p < count ==> list[p] < enemies.Length
      ensures r == FirstHit(enemies[..], b, list[..count], false, 0)
    {
      var idx := 0;
      while idx < count
        invariant idx <= count
        invariant FirstHit(enemies[..], b, list[..count], false, idx) == FirstHit(enemies[..], b, list[..count], false, 0)
      {
        var j := list[idx];
        if Touches(b, enemies[j]) {
          return Found(idx);
        }
        idx := idx + 1;
      }
      return Miss;
    }

    /** The death of enemy `j` (src/game.c:676-690). */
    method KillEnemy(j: nat)
      requires Valid() && j < enemies.Length
      modifies `player, `level, `draws, enemies, explosions, powerups
      ensures Valid()
      ensures FightNow() == Kill(old(FightNow()), player.lives, j, rand)
      ensures player == old(player).(score := player.score) && level == old(level).(bossDefeated := level.bossDefeated)
    {
      ghost var f := FightNow();
      var e := enemies[j];
      player := player.(score := player.score + e.score);
      CreateExplosion(e.x, e.y, e.width * 1.5);
      if e.kind == Boss {
        level := level.(bossDefeated := true);
      }
      DropFrom(e);
      enemies[j] := e.(active := false);
      KillSteps(f, player.lives, j, rand, explosions[..], (powerups[..], draws));
    }

    /** What a dying enemy leaves behind (src/game.c:682-687). */
    method DropFrom(e: Enemy)
      requires Valid()
      modifies `draws, powerups
      ensures Valid() && (powerups[..], draws) == Drop(old(powerups[..]), player.lives, e, rand, old(draws))
    {
      if e.kind == Boss {
        SpawnPowerup(e.x, e.y);
      } else {
        var v := Rand();
        if v % 100 < 10 {
          SpawnPowerup(e.x, e.y);
        }
      }
    }

    /** Bullet `i` striking enemy `j` (src/game.c:671-692). */
    method Hit(i: nat, j: nat)
      requires Valid() && i < bullets.Length && j < enemies.Length
      modifies `player, `level, `draws, bullets, enemies, explosions, powerups
      ensures Valid()
      ensures FightNow() == ResolveHit(old(FightNow()), old(player.lives), i, j, rand)
      ensures player == old(player).(score := player.score) && level == old(level).(bossDefeated := level.bossDefeated)
    {
      var e := enemies[j];
      enemies[j] := e.(health := e.health - 1);
      bullets[i] := bullets[i].(active := false);
      if e.health - 1 <= 0 {
        KillEnemy(j);
      }
    }

    /** Bullet `i`'s turn in the first pass (src/game.c:647-694). */
    method ShootBullet(i: nat, list: array<nat>, count: nat)
      requires Valid() && i < bullets.Length && count <= list.Length
      requires forall p :: 0 <= p < count ==> list[p] < enemies.Length
      modifies `player, `level, `draws, bullets, enemies, explosions, powerups
      ensures Valid()
      ensures FightNow() == ShootAt(old(FightNow()), old(player.lives), i, list[..count], false, rand)
      ensures player == old(player).(score := player.score) && level == old(level).(bossDefeated := level.bossDefeated)
    {
      if bullets[i].active {
        var r := FindTarget(bullets[i], list, count);
        if r.Found? {
          Hit(i, list[r.pos]);
        }
      }
    }

    /** The first pass: player bullets against the listed enemies
        (src/game.c:646-694). */
    method ShootEnemiesPass(list: array<nat>, count: nat)
      requires Valid() && count <= list.Length
      requires forall p :: 0 <= p < count ==> list[p] < enemies.Length
      modifies `player, `level, `draws, bullets, enemies, explosions, powerups
      ensures Valid()
      ensures FightNow() == ShootEnemiesN(old(FightNow()), old(player.lives), list[..count], false, rand, bullets.Length)
      ensures player == old(player).(score := player.score) && level == old(level).(bossDefeated := level.bossDefeated)
    {
      ghost var f := FightNow();
      for i := 0 to bullets.Length
        invariant Valid()
        invariant FightNow() == ShootEnemiesN(f, old(player.lives), list[..count], false, rand, i)
        invariant player == old(player).(score := player.score) && level == old(level).(bossDefeated := level.bossDefeated)
      {
        ShootBullet(i, list, count);
      }
    }

    /** A hit on the player (src/game.c:704-711, 724-737): a life is lost,
        an explosion is made at the player and any timed power ends. */
    method HurtPlayer()
      requires Valid()
      modifies `player, explosions
      ensures Valid()
      ensures (player, explosions[..]) == PlayerHit(old(player), old(explosions[..]))
    {
      player := player.(lives := player.lives - 1);
      CreateExplosion(player.x, player.y, player.width);
      player := player.(isRapidFire := false, isDoubleBullet := false, powerupTimer := 0.0);
    }

    /** The second pass: enemy bullets against the player's box
        (src/game.c:696-714). */
    method ShotsAtPlayerPass(box: Box)
      requires Valid()
      modifies `player, enemyBullets, explosions
      ensures Valid()
      ensures State() == ShotsPhase(old(State()), box)
    {
      ghost var v := ShotsPhase(State(), box);
      for i := 0 to enemyBullets.Length
        invariant (player, enemyBullets[..], explosions[..]) ==
                  ShotsAtPlayerN(old(player), old(enemyBullets[..]), old(explosions[..]), box, i)
      {
        var b := enemyBullets[i];
        if b.active && Overlaps(b.x, b.y, b.width, b.height, box) {
          enemyBullets[i] := b.(active := false);
          HurtPlayer();
        }
      }
      assert player == v.player && enemyBullets[..] == v.enemyBullets && explosions[..] == v.explosions;
    }

    /** The third pass: enemies against the player's box
        (src/game.c:716-740). */
    method RamsPass(box: Box)
      requires Valid()
      modifies `player, enemies, explosions
      ensures Valid()
      ensures State() == RamsPhase(old(State()), box)
    {
      ghost var v := RamsPhase(State(), box);
      RamsLoop(box);
      assert player == v.player && enemies[..] == v.enemies && explosions[..] == v.explosions;
    }

    method RamsLoop(box: Box)
      requires Valid()
      modifies `player, enemies, explosions
      ensures Valid()
      ensures (player, enemies[..], explosions[..]) ==
              RamsN(old(player), old(enemies[..]), old(explosions[..]), box, enemies.Length)
    {
      for i := 0 to enemies.Length
        invariant (player, enemies[..], explosions[..]) ==
                  RamsN(old(player), old(enemies[..]), old(explosions[..]), box, i)
      {
        var e := enemies[i];
        if e.active && Overlaps(e.x, e.y, e.width, e.height, box) {
          HurtPlayer();
          CreateExplosion(e.x, e.y, e.width);
          if e.kind != Boss {
            enemies[i] := e.(active := false);
          } else {
            player := player.(x := 50.0);
          }
        }
      }
    }

    /** The fourth pass: powerups against the player's box
        (src/game.c:742-769). */
    method PickupsPass(box: Box)
      requires Valid()
      modifies `player, powerups
      ensures State() == PickupsPhase(old(State()), box)
    {
      ghost var v := PickupsPhase(State(), box);
      for i := 0 to powerups.Length
        invariant (player, powerups[..]) == PickupsN(old(player), old(powerups[..]), box, i)
      {
        var u := powerups[i];
        if u.active && Overlaps(u.x, u.y, u.width, u.height, box) {
          match u.kind {
            case Health =>
              if player.lives < 3 {
                player := player.(lives := player.lives + 1);
              }
            case RapidFire =>
              player := player.(isRapidFire := true, powerupTimer := PowerupDuration);
            case DoubleBullet =>
              player := player.(isDoubleBullet := true, powerupTimer := PowerupDuration);
          }
          powerups[i] := u.(active := false);
        }
      }
      assert player == v.player && powerups[..] == v.powerups;
    }

    /** The list and the first pass (src/game.c:637-694). */
    method FirstPass()
      requires Valid()
      modifies `player, `level, `draws, bullets, enemies, explosions, powerups
      ensures Valid()
      ensures State() == ShootPhase(old(State()), rand)
    {
      ghost var w := State();
      assert FightNow() == FightOf(w);
      ShootAll();
      ShootPhaseSteps(w, rand, FightNow());
    }

    /** The first pass on the fight: the list of active enemies, then every
        bullet against it (src/game.c:637-694). */
    method ShootAll()
      requires Valid()
      modifies `player, `level, `draws, bullets, enemies, explosions, powerups
      ensures Valid()
      ensures FightNow() == ShootEnemiesAsWritten(old(FightNow()), old(player.lives), rand)
      ensures player == old(player).(score := player.score) && level == old(level).(bossDefeated := level.bossDefeated)
    {
      var list, count := ActiveList();
      ShootEnemiesPass(list, count);
    }

    /** The three passes against the player's box (src/game.c:696-769). */
    method PlayerPasses(box: Box)
      requires Valid()
      modifies `player, enemyBullets, enemies, explosions, powerups
      ensures Valid()
      ensures State() == PlayerPhase(old(State()), box)
    {
      ShotsAtPlayerPass(box);
      RamsPass(box);
      PickupsPass(box);
    }

    /** handleCollisions (src/game.c:628-770). */
    method HandleCollisions()
      requires Valid()
      modifies `player, `level, `draws, bullets, enemies, enemyBullets, explosions, powerups
      ensures Valid()
      ensures State() == Collide(old(State()), rand)
    {
      var box := PlayerBox(player);
      FirstPass();
      PlayerPasses(box);
    }

    // ----- updateGame -----

    /** The player and both bullet loops, on the whole state. */
    method MoveShotsWorld(dt: real)
      requires Valid()
      modifies `player, `draws, bullets, enemyBullets
      ensures Valid() && State() == Motion.MoveShots(old(State()), dt, rand)
    {
      ghost var v := Motion.MoveShots(State(), dt, rand);
      MoveShotsPhase(dt);
      assert player == v.player && bullets[..] == v.bullets && enemyBullets[..] == v.enemyBullets && draws == v.draws;
    }

    /** The enemy loop, on the whole state. */
    method MoveEnemiesWorld(dt: real)
      requires Valid()
      modifies `draws, enemies, enemyBullets
      ensures Valid() && State() == StepEnemies(old(State()), dt, rand, sin, enemies.Length)
    {
      ghost var v := StepEnemies(State(), dt, rand, sin, enemies.Length);
      MoveEnemies(dt);
      assert enemies[..] == v.enemies && enemyBullets[..] == v.enemyBullets && draws == v.draws;
    }

    /** The powerup and explosion loops, on the whole state. */
    method MoveItemsWorld(dt: real)
      requires Valid()
      modifies `draws, powerups, explosions
      ensures Valid() && State() == Motion.MoveItems(old(State()), dt, rand)
    {
      ghost var v := Motion.MoveItems(State(), dt, rand);
      MoveItemsPhase(dt);
      assert powerups[..] == v.powerups && explosions[..] == v.explosions && draws == v.draws;
    }

    /** Everything updateGame moves (src/game.c:82-369). */
    method MoveEntitiesWorld(dt: real)
      requires Valid()
      modifies `player, `draws, bullets, enemies, enemyBullets, powerups, explosions
      ensures Valid() && State() == MoveEntities(old(State()), dt, rand, sin)
    {
      MoveShotsWorld(dt);
      MoveEnemiesWorld(dt);
      MoveItemsWorld(dt);
    }

    /** Both spawn timers, on the whole state (src/game.c:371-406). */
    method SpawnTimersWorld(dt: real)
      requires Valid()
      modifies `enemySpawnTimer, `powerupSpawnTimer, `level, `draws, enemies, powerups
      ensures Valid() && State() == SpawnTimers(old(State()), dt, rand)
    {
      if !benchmarkMode {
        EnemyTimerStep(dt);
        PowerupTimerWorld(dt);
      }
    }

    method PowerupTimerWorld(dt: real)
      requires Valid()
      modifies `powerupSpawnTimer, `draws, powerups
      ensures Valid() && State() == PowerupTimer(old(State()), dt, rand)
    {
      ghost var v := PowerupTimer(State(), dt, rand);
      PowerupTimerStep(dt);
      assert powerups[..] == v.powerups && powerupSpawnTimer == v.powerupSpawnTimer && draws == v.draws;
    }

    /** The scroll, on the whole state. */
    method ScrollWorld(dt: real)
      requires Valid()
      modifies `level
      ensures Valid() && State() == old(State()).(level := Scroll(old(level), dt))
    {
      ScrollLayers(dt);
    }

    /** The end of the frame (src/game.c:416-422). */
    method EndOfFrame()
      requires Valid()
      modifies `level, `enemySpawnTimer, `powerupSpawnTimer, `gameOver, enemies, enemyBullets
      ensures Valid() && State() == EndFrame(old(State()))
    {
      if level.bossSpawned && level.bossDefeated {
        NextLevel();
      }
      if !benchmarkMode && player.lives <= 0 {
        gameOver := true;
      }
    }

    /** updateGame (src/game.c:75-423): nothing moves in a game that is over
        or paused. */
    method UpdateGame(dt: real)
      requires Valid()
      modifies this, bullets, enemies, enemyBullets, powerups, explosions
      ensures Valid() && State() == Update(old(State()), dt, rand, sin)
    {
      if gameOver || paused {
        return;
      }
      MoveEntitiesWorld(dt);
      SpawnTimersWorld(dt);
      ScrollWorld(dt);
      if !benchmarkMode {
        HandleCollisions();
      }
      EndOfFrame();
    }

    // ----- prepareBenchmarkScene (src/game.c:794-958) -----

    /** One seeded bullet slot (src/game.c:815-821, 828-834). */
    method SeedShotIn(b0: Bullet, side: Side) returns (b: Bullet)
      modifies `draws
      ensures b == SeedShot(b0, side, rand, old(draws)) && draws == old(draws) + 2
    {
      b := b0.(active := true, width := BulletWidth, height := BulletHeight,
                     speed := if side == Players then -BulletSpeed else EnemyBulletSpeed);
      var rx := Rand();
      b := b.(x := if side == Players then (rx % 480) as real else (480 - rx % 240) as real);
      var ry := Rand();
      b := b.(y := (ry % 316) as real + 2.0);
    }

    /** A bullet loop of the benchmark (src/game.c:814-825, 827-838). */
    method SeedShotsPass(a: array<Bullet>, side: Side, target: nat)
      modifies a, `draws
      ensures (a[..], draws) == SeedShots(old(a[..]), side, target, rand, old(draws), a.Length)
    {
      ghost var s0, k0 := a[..], draws;
      for i := 0 to a.Length
        invariant (a[..], draws) == SeedShots(s0, side, target, rand, k0, i)
      {
        SeedShotSlot(a, i, side, target, s0, k0);
      }
    }

    /** One turn of a bullet loop: seed slot i when it is below the target,
        clear it otherwise. */
    method SeedShotSlot(a: array<Bullet>, i: nat, side: Side, target: nat, ghost s0: seq<Bullet>, ghost k0: nat)
      requires i < a.Length == |s0| && (a[..], draws) == SeedShots(s0, side, target, rand, k0, i)
      modifies a, `draws
      ensures (a[..], draws) == SeedShots(s0, side, target, rand, k0, i + 1)
    {
      ghost var v := (a[..], draws);
      SeedShotsNext(s0, side, target, rand, k0, i, v);
      if i < target {
        var b := SeedShotIn(a[i], side);
        a[i] := b;
        assert a[..] == v.0[i := b];
      } else {
        a[i] := a[i].(active := false);
        assert a[..] == v.0[i := v.0[i].(active := false)];
      }
    }

    /** A placed enemy of a chosen type (src/game.c:862-926). */
    method PlaceEnemy(e0: Enemy, t: EnemyType, i: nat, bosses: nat) returns (r: Enemy)
      modifies `draws
      ensures (r, draws) == PlaceBody(e0, t, i, bosses, level.number, benchmarkSpawnBand, rand, old(draws))
    {
      var m := Rand();
      var e := SeedBody(e0, t, level.number, (m % 628) as real / 100.0);
      var dx := Rand();
      var dy := Rand();
      r := e.(x := PlaceX(e, i, bosses, benchmarkSpawnBand, dx), y := PlaceY(e, dy));
    }

    /** A placed enemy slot: a boss while bosses remain to be placed,
        otherwise a type drawn from rand() (src/game.c:848-928). */
    method PlaceSlot(e0: Enemy, i: nat, bossTarget: nat, bossesPlaced: nat) returns (e: Enemy, placedNow: nat)
      requires bossesPlaced == if i < bossTarget then i else bossTarget
      modifies `draws
      ensures placedNow == if i + 1 < bossTarget then i + 1 else bossTarget
      ensures (e, draws) == SeedEnemy(e0, i, bossTarget, level.number, benchmarkSpawnBand, rand, old(draws))
    {
      var t: EnemyType;
      placedNow := bossesPlaced;
      if bossesPlaced < bossTarget {
        t := Boss;
        placedNow := bossesPlaced + 1;
      } else {
        var d := Rand();
        t := SpawnType(d % 100);
      }
      e := PlaceEnemy(e0, t, i, bossTarget);
    }

    /** The enemy loop of the benchmark, with its counts of placed enemies
        and bosses (src/game.c:840-929). */
    method SeedEnemiesPass(target: nat)
      requires Valid()
      modifies enemies, `draws
      ensures (enemies[..], draws) ==
              SeedEnemies(old(enemies[..]), target, level.number, benchmarkSpawnBand, rand, old(draws), enemies.Length)
    {
      var placed := 0;
      var bossTarget := 0;
      if target > 0 {
        bossTarget := 10;
        if bossTarget > target {
          bossTarget := target;
        }
      }
      assert bossTarget == BossTarget(target);
      var bossesPlaced := 0;
      ghost var s0, k0 := enemies[..], draws;
      for i := 0 to enemies.Length
        invariant placed == if i < target then i else target
        invariant bossesPlaced == if i < bossTarget then i else bossTarget
        invariant (enemies[..], draws) == SeedEnemies(s0, target, level.number, benchmarkSpawnBand, rand, k0, i)
      {
        placed, bossesPlaced := SeedEnemySlot(i, target, bossTarget, placed, bossesPlaced, s0, k0);
      }
    }

    /** One turn of the enemy loop: past the target the slot is cleared,
        below it an enemy is placed and counted. */
    method SeedEnemySlot(i: nat, target: nat, bossTarget: nat, placed: nat, bossesPlaced: nat,
                         ghost s0: seq<Enemy>, ghost k0: nat) returns (placed': nat, bossesPlaced': nat)
      requires i < enemies.Length == |s0| && bossTarget == BossTarget(target)
      requires placed == if i < target then i else target
      requires bossesPlaced == if i < bossTarget then i else bossTarget
      requires (enemies[..], draws) == SeedEnemies(s0, target, level.number, benchmarkSpawnBand, rand, k0, i)
      modifies enemies, `draws
      ensures placed' == if i + 1 < target then i + 1 else target
      ensures bossesPlaced' == if i + 1 < bossTarget then i + 1 else bossTarget
      ensures (enemies[..], draws) == SeedEnemies(s0, target, level.number, benchmarkSpawnBand, rand, k0, i + 1)
    {
      ghost var v := (enemies[..], draws);
      SeedEnemiesNext(s0, target, level.number, benchmarkSpawnBand, rand, k0, i, v);
      placed', bossesPlaced' := placed, bossesPlaced;
      if placed >= target {
        enemies[i] := enemies[i].(active := false);
        assert enemies[..] == v.0[i := v.0[i].(active := false)];
      } else {
        var e;
        e, bossesPlaced' := PlaceSlot(enemies[i], i, bossTarget, bossesPlaced);
        enemies[i] := e;
        assert enemies[..] == v.0[i := e];
        placed' := placed + 1;
      }
    }

    /** One seeded powerup slot (src/game.c:932-939). */
    method SeedPowerupIn(p0: Powerup) returns (p: Powerup)
      modifies `draws
      ensures p == SeedPowerup(p0, rand, old(draws)) && draws == old(draws) + 3
    {
      p := p0.(active := true, width := PowerupWidth, height := PowerupHeight, speed := 60.0);
      var t := Rand();
      p := p.(kind := PowerupFromOrdinal(t % 3));
      var rx := Rand();
      p := p.(x := (480 - rx % 160) as real);
      var ry := Rand();
      p := p.(y := (ry % 304) as real + 8.0);
    }

    /** The powerup loop of the benchmark (src/game.c:931-943). */
    method SeedPowerupsPass(target: nat)
      requires Valid()
      modifies powerups, `draws
      ensures (powerups[..], draws) == SeedPowerups(old(powerups[..]), target, rand, old(draws), powerups.Length)
    {
      ghost var s0, k0 := powerups[..], draws;
      for i := 0 to powerups.Length
        invariant (powerups[..], draws) == SeedPowerups(s0, target, rand, k0, i)
      {
        SeedPowerupSlot(i, target, s0, k0);
      }
    }

    /** One turn of the powerup loop. */
    method SeedPowerupSlot(i: nat, target: nat, ghost s0: seq<Powerup>, ghost k0: nat)
      requires i < powerups.Length == |s0| && (powerups[..], draws) == SeedPowerups(s0, target, rand, k0, i)
      modifies powerups, `draws
      ensures (powerups[..], draws) == SeedPowerups(s0, target, rand, k0, i + 1)
    {
      ghost var v := (powerups[..], draws);
      SeedPowerupsNext(s0, target, rand, k0, i, v);
      if i < target {
        var p := SeedPowerupIn(powerups[i]);
        powerups[i] := p;
        assert powerups[..] == v.0[i := p];
      } else {
        powerups[i] := powerups[i].(active := false);
        assert powerups[..] == v.0[i := v.0[i].(active := false)];
      }
    }

    /** One seeded explosion slot (src/game.c:946-953). */
    method SeedExplosionIn(x0: Explosion) returns (x: Explosion)
      modifies `draws
      ensures x == SeedExplosion(x0, rand, old(draws)) && draws == old(draws) + 3
    {
      x := x0.(active := true, width := 24.0, height := 24.0, lifespan := 0.6);
      var c := Rand();
      x := x.(currentLife := 0.6 * (c % 100) as real / 100.0);
      var rx := Rand();
      x := x.(x := (rx % 480) as real);
      var ry := Rand();
      x := x.(y := (ry % 320) as real);
    }

    /** The explosion loop of the benchmark (src/game.c:945-957). */
    method SeedExplosionsPass(target: nat)
      requires Valid()
      modifies explosions, `draws
      ensures (explosions[..], draws) == SeedExplosions(old(explosions[..]), target, rand, old(draws), explosions.Length)
    {
      ghost var s0, k0 := explosions[..], draws;
      for i := 0 to explosions.Length
        invariant (explosions[..], draws) == SeedExplosions(s0, target, rand, k0, i)
      {
        SeedExplosionSlot(i, target, s0, k0);
      }
    }

    /** One turn of the explosion loop. */
    method SeedExplosionSlot(i: nat, target: nat, ghost s0: seq<Explosion>, ghost k0: nat)
      requires i < explosions.Length == |s0| && (explosions[..], draws) == SeedExplosions(s0, target, rand, k0, i)
      modifies explosions, `draws
      ensures (explosions[..], draws) == SeedExplosions(s0, target, rand, k0, i + 1)
    {
      ghost var v := (explosions[..], draws);
      SeedExplosionsNext(s0, target, rand, k0, i, v);
      if i < target {
        var x := SeedExplosionIn(explosions[i]);
        explosions[i] := x;
        assert explosions[..] == v.0[i := x];
      } else {
        explosions[i] := explosions[i].(active := false);
        assert explosions[..] == v.0[i := v.0[i].(active := false)];
      }
    }

    /** The settings the benchmark starts from (src/game.c:795-806). */
    method BenchmarkSetup()
      requires Valid()
      modifies `player, `level, `enemySpawnTimer, `powerupSpawnTimer, `benchmarkMode, `benchmarkSpawnBand
      ensures Valid() && State() == BenchmarkSettings(old(State()))
    {
      benchmarkMode := true;
      benchmarkSpawnBand := 0.10;
      player := player.(lives := 9999, bulletCooldown := 0.0);
      level := level.(scrollSpeed := 80.0, enemySpawnRate := 0.15);
      enemySpawnTimer := 0.0;
      powerupSpawnTimer := 2.0;
    }

    /** The five loops as steps on the whole state. */
    method SeedBulletsWorld(target: nat)
      requires Valid()
      modifies bullets, `draws
      ensures Valid() && State() == BulletsSeeded(old(State()), target, rand)
    {
      ghost var v := BulletsSeeded(State(), target, rand);
      SeedShotsPass(bullets, Players, target);
      assert bullets[..] == v.bullets && draws == v.draws;
    }

    method SeedEnemyBulletsWorld(target: nat)
      requires Valid()
      modifies enemyBullets, `draws
      ensures Valid() && State() == EnemyBulletsSeeded(old(State()), target, rand)
    {
      ghost var v := EnemyBulletsSeeded(State(), target, rand);
      SeedShotsPass(enemyBullets, Enemies, target);
      assert enemyBullets[..] == v.enemyBullets && draws == v.draws;
    }

    method SeedEnemiesWorld(target: nat)
      requires Valid()
      modifies enemies, `draws
      ensures Valid() && State() == EnemiesSeeded(old(State()), target, rand)
    {
      ghost var v := EnemiesSeeded(State(), target, rand);
      SeedEnemiesPass(target);
      assert enemies[..] == v.enemies && draws == v.draws;
    }

    method SeedPowerupsWorld(target: nat)
      requires Valid()
      modifies powerups, `draws
      ensures Valid() && State() == PowerupsSeeded(old(State()), target, rand)
    {
      ghost var v := PowerupsSeeded(State(), target, rand);
      SeedPowerupsPass(target);
      assert powerups[..] == v.powerups && draws == v.draws;
    }

    method SeedExplosionsWorld(target: nat)
      requires Valid()
      modifies explosions, `draws
      ensures Valid() && State() == ExplosionsSeeded(old(State()), target, rand)
    {
      ghost var v := ExplosionsSeeded(State(), target, rand);
      SeedExplosionsPass(target);
      assert explosions[..] == v.explosions && draws == v.draws;
    }

    /** prepareBenchmarkScene (src/game.c:794-958). */
    method PrepareBenchmarkScene(density: int)
      requires Valid()
      modifies `player, `level, `enemySpawnTimer, `powerupSpawnTimer, `benchmarkMode, `benchmarkSpawnBand, `draws,
               bullets, enemies, enemyBullets, powerups, explosions
      ensures Valid() && State() == PrepareBenchmark(old(State()), density, rand)
    {
      var d := density;
      if d < 0 {
        d := 0;
      }
      if d > 100 {
        d := 100;
      }
      assert d == ClampDensity(density);
      BenchmarkSetup();
      var targetBullets := MaxBullets * d / 100;
      var targetEnemyBullets := MaxEnemyBullets * d / 100;
      var targetEnemies := MaxEnemies * d / 100;
      var targetPowerups := MaxPowerups * d / 100;
      var targetExplosions := MaxExplosions * d / 100;
      SeedBulletsWorld(targetBullets);
      SeedEnemyBulletsWorld(targetEnemyBullets);
      SeedEnemiesWorld(targetEnemies);
      SeedPowerupsWorld(targetPowerups);
      SeedExplosionsWorld(targetExplosions);
    }
  }
}
