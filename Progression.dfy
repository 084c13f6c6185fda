/** The rest of a frame of updateGame in src/game.c after the motion: the
    spawn timers (lines 371-406), the parallax scroll (408-410), the level
    change nextLevel (772-792, run from 416-418) and the game-over rule
    (420-422). */
module Progression {
  import opened GameTypes
  import opened Pools
  import opened World
  import opened Spawning

  /** The type a regular spawn draws from `r = rand() % 100`
      (src/game.c:379-386): 60 small, 25 medium, 15 large, never a boss. */
  function SpawnType(r: nat): (t: EnemyType)
    ensures t != Boss
    ensures t == Small <==> r < 60
    ensures t == Medium <==> 60 <= r < 85
    ensures t == Large <==> r >= 85
  {
    if r < 60 then Small else if r < 85 then Medium else Large
  }

  /** The enemy timer (src/game.c:371-392). Once the timer runs out and no
      boss has come yet, a player with at least ten points per level number
      meets the boss (and the timer is left as it is); otherwise a regular
      enemy comes and the timer restarts at the level's spawn rate. */
  function EnemyTimer(w: World, dt: real, rand: Oracle): (r: World)
    ensures r == w.(enemies := r.enemies, enemySpawnTimer := r.enemySpawnTimer, level := r.level, draws := r.draws)
    ensures r.level == w.level.(bossSpawned := r.level.bossSpawned)
    ensures |r.enemies| == |w.enemies| && r.draws >= w.draws
  {
    var w0 := w.(enemySpawnTimer := w.enemySpawnTimer - dt);
    if w0.enemySpawnTimer <= 0.0 && !w.level.bossSpawned then
      if w.player.score >= w.level.number * 10 then BossArrival(w0) else RegularArrival(w0, rand)
    else w0
  }

  /** The boss comes and the level records it. */
  function BossArrival(w: World): (r: World)
    ensures r == w.(enemies := r.enemies, level := w.level.(bossSpawned := true))
    ensures |r.enemies| == |w.enemies|
  {
    var b := SpawnBoss(w);
    b.(level := b.level.(bossSpawned := true))
  }

  /** A regular enemy of a drawn type comes and the timer restarts at the
      level's spawn rate. */
  function RegularArrival(w: World, rand: Oracle): (r: World)
    ensures r == w.(enemies := r.enemies, enemySpawnTimer := w.level.enemySpawnRate, draws := r.draws)
    ensures |r.enemies| == |w.enemies| && r.draws > w.draws
  {
    var e := SpawnEnemy(w.(draws := w.draws + 1), SpawnType(rand(w.draws) % 100), rand);
    e.(enemySpawnTimer := w.level.enemySpawnRate)
  }

  /** The powerup timer (src/game.c:394-406): when it runs out, a powerup is
      offered at the right edge at a random height in [8, 303] and the timer
      restarts at 15 seconds. */
  function PowerupTimer(w: World, dt: real, rand: Oracle): (r: World)
    ensures r == w.(powerups := r.powerups, powerupSpawnTimer := r.powerupSpawnTimer, draws := r.draws)
    ensures |r.powerups| == |w.powerups| && r.draws >= w.draws
    ensures forall k :: 0 <= k < |w.powerups| && w.powerups[k].active ==> r.powerups[k] == w.powerups[k]
    ensures r.powerupSpawnTimer == if w.powerupSpawnTimer - dt <= 0.0 then PowerupSpawnDelay else w.powerupSpawnTimer - dt
  {
    var t := w.powerupSpawnTimer - dt;
    if t <= 0.0 then
      var minY := 8.0;
      var maxY := ScreenHeight - PowerupHeight;
      var y := CMod(rand(w.draws), Trunc(maxY - minY)) as real + minY;
      var d := SpawnPowerup(w.powerups, w.player.lives, ScreenWidth, y, rand, w.draws + 1);
      w.(powerups := d.0, draws := d.1, powerupSpawnTimer := PowerupSpawnDelay)
    else w.(powerupSpawnTimer := t)
  }

  /** Both timers; the benchmark runs neither (src/game.c:371-406). */
  function SpawnTimers(w: World, dt: real, rand: Oracle): (r: World)
    ensures r == w.(enemies := r.enemies, powerups := r.powerups, enemySpawnTimer := r.enemySpawnTimer,
                    powerupSpawnTimer := r.powerupSpawnTimer, level := r.level, draws := r.draws)
    ensures r.level == w.level.(bossSpawned := r.level.bossSpawned)
    ensures |r.enemies| == |w.enemies| && |r.powerups| == |w.powerups| && r.draws >= w.draws
    ensures w.benchmarkMode ==> r == w
  {
    if w.benchmarkMode then w else PowerupTimer(EnemyTimer(w, dt, rand), dt, rand)
  }

  /** Each timer keeps the world's invariant, and so do both. */
  lemma EnemyTimerKeepsWorldOk(w: World, dt: real, rand: Oracle)
    requires WorldOk(w)
    ensures WorldOk(EnemyTimer(w, dt, rand))
  {
    var w0 := w.(enemySpawnTimer := w.enemySpawnTimer - dt);
    if w0.enemySpawnTimer <= 0.0 && !w.level.bossSpawned {
      if w.player.score >= w.level.number * 10 {
        SpawnBossKeepsWorldOk(w0);
      } else {
        SpawnEnemyKeepsWorldOk(w0.(draws := w.draws + 1), SpawnType(rand(w.draws) % 100), rand);
      }
    }
  }

  lemma PowerupTimerKeepsWorldOk(w: World, dt: real, rand: Oracle)
    requires WorldOk(w)
    ensures WorldOk(PowerupTimer(w, dt, rand))
  {
  }

  lemma TimersKeepWorldOk(w: World, dt: real, rand: Oracle)
    requires WorldOk(w)
    ensures WorldOk(SpawnTimers(w, dt, rand))
  {
    if !w.benchmarkMode {
      EnemyTimerKeepsWorldOk(w, dt, rand);
      PowerupTimerKeepsWorldOk(EnemyTimer(w, dt, rand), dt, rand);
    }
  }

  /** Once the boss has come, no enemy spawns for the rest of the level,
      and the boss's spawn is what raises the flag: the flag goes up exactly
      when the timer runs out with the score at ten points per level. */
  lemma EnemyTimerBoss(w: World, dt: real, rand: Oracle)
    ensures w.level.bossSpawned ==> EnemyTimer(w, dt, rand).enemies == w.enemies
    ensures EnemyTimer(w, dt, rand).level.bossSpawned <==>
            w.level.bossSpawned || (w.enemySpawnTimer - dt <= 0.0 && w.player.score >= w.level.number * 10)
    ensures !w.level.bossSpawned && EnemyTimer(w, dt, rand).level.bossSpawned ==>
            EnemyTimer(w, dt, rand).enemies == SpawnBoss(w).enemies
  {
  }

  /** The regular spawn activates at most one enemy, never a boss, and the
      enemy count stays within the pool. */
  lemma EnemyTimerRegularSpawn(w: World, dt: real, rand: Oracle)
    requires WorldOk(w)
    requires w.enemySpawnTimer - dt <= 0.0 && !w.level.bossSpawned
    requires w.player.score < w.level.number * 10
    ensures var r := EnemyTimer(w, dt, rand);
            var i := FirstFreeFrom(EnemyFlags(w.enemies), 0);
            && r.enemySpawnTimer == w.level.enemySpawnRate
            && FilledLowestFree(EnemyFlags(w.enemies), EnemyFlags(r.enemies))
            && (i < |w.enemies| ==> r.enemies[i].kind == SpawnType(rand(w.draws) % 100) != Boss)
  {
    SpawnEnemyFillsLowestFree(w.(enemySpawnTimer := w.enemySpawnTimer - dt, draws := w.draws + 1),
                              SpawnType(rand(w.draws) % 100), rand);
  }

  /** The parallax scroll (src/game.c:408-410). */
  function Scroll(l: Level, dt: real): (r: Level)
    ensures r == l.(backgroundOffset := r.backgroundOffset, midgroundOffset := r.midgroundOffset,
                    foregroundOffset := r.foregroundOffset)
  {
    l.(backgroundOffset := l.backgroundOffset + l.scrollSpeed * 0.3 * dt,
       midgroundOffset := l.midgroundOffset + l.scrollSpeed * 0.7 * dt,
       foregroundOffset := l.foregroundOffset + l.scrollSpeed * 1.4 * dt)
  }

  /** nextLevel (src/game.c:772-792). */
  function NextLevel(w: World): (r: World)
    ensures r == w.(level := r.level, enemies := r.enemies, enemyBullets := r.enemyBullets,
                    enemySpawnTimer := r.enemySpawnTimer, powerupSpawnTimer := r.powerupSpawnTimer)
    ensures |r.enemies| == |w.enemies| && |r.enemyBullets| == |w.enemyBullets|
  {
    var l := w.level;
    var rate := l.enemySpawnRate * 0.6;
    w.(level := l.(number := l.number + 1, bossSpawned := false, bossDefeated := false,
                   scrollSpeed := l.scrollSpeed + 5.0, enemySpawnRate := if rate < 1.0 then 1.0 else rate),
       enemies := ClearEnemies(w.enemies),
       enemyBullets := ClearBullets(w.enemyBullets),
       enemySpawnTimer := 2.0,
       powerupSpawnTimer := PowerupSpawnDelay / 2.0)
  }

  /** A new level starts clear: one level number higher, with no boss yet,
      no enemies and no enemy bullets, a faster scroll, and enemies coming
      at 60% of the old interval but never more often than once a second,
      after a two-second break; everything else is kept. */
  lemma NextLevelEffects(w: World)
    ensures var r := NextLevel(w);
            && r.level.number == w.level.number + 1
            && !r.level.bossSpawned && !r.level.bossDefeated
            && r.level.scrollSpeed == w.level.scrollSpeed + 5.0
            && r.level.enemySpawnRate == Floor1(w.level.enemySpawnRate * 0.6)
            && r.level.enemySpawnRate >= 1.0
            && (w.level.enemySpawnRate >= 1.0 ==> r.level.enemySpawnRate <= w.level.enemySpawnRate)
            && r.enemySpawnTimer == 2.0 && r.powerupSpawnTimer == 7.5
            && CountTrue(EnemyFlags(r.enemies)) == 0
            && CountTrue(BulletFlags(r.enemyBullets)) == 0
            && (forall k :: 0 <= k < |w.enemies| ==> r.enemies[k] == w.enemies[k].(active := false))
  {
    var r := NextLevel(w);
    CountTruePrefix(EnemyFlags(r.enemies), 0);
    CountTruePrefix(BulletFlags(r.enemyBullets), 0);
  }

  /** A level change keeps the world's invariant. */
  lemma NextLevelKeepsWorldOk(w: World)
    requires WorldOk(w)
    ensures WorldOk(NextLevel(w))
  {
  }

  /** A spawn interval no shorter than one second. */
  function Floor1(rate: real): (r: real)
    ensures r >= 1.0 && r >= rate
    ensures rate >= 1.0 ==> r == rate
  {
    if rate < 1.0 then 1.0 else rate
  }

  /** The interval `rate` shortened to 60% at each of `n` level changes. */
  function Decayed(rate: real, n: nat): real
  {
    if n == 0 then rate else Decayed(rate, n - 1) * 0.6
  }

  /** `n` level changes in a row. */
  function Levels(w: World, n: nat): (r: World)
    ensures n == 0 ==> r == w
  {
    if n == 0 then w else NextLevel(Levels(w, n - 1))
  }

  /** After `n` level changes, the spawn interval is the starting interval
      shortened to 60% at each change, or one second once that falls below
      a second: the floor, once reached, is kept for good. */
  lemma {:induction false} SpawnRateAfterLevels(w: World, n: nat)
    requires n >= 1
    ensures Levels(w, n).level.enemySpawnRate == Floor1(Decayed(w.level.enemySpawnRate, n))
    ensures Levels(w, n).level.number == w.level.number + n
  {
    if n > 1 {
      SpawnRateAfterLevels(w, n - 1);
      var d := Decayed(w.level.enemySpawnRate, n - 1);
      if d < 1.0 {
        assert d * 0.6 < 1.0;
      }
    }
  }

  /** The end of a frame (src/game.c:416-422): a spawned boss that has been
      defeated moves the game to the next level, and outside the benchmark a
      player out of lives ends the game. */
  function EndFrame(w: World): (r: World)
    ensures !(r.level.bossSpawned && r.level.bossDefeated)
    ensures r.player == w.player && r.bullets == w.bullets && r.powerups == w.powerups
    ensures r.explosions == w.explosions && r.draws == w.draws && r.benchmarkMode == w.benchmarkMode
    ensures r.gameOver == (w.gameOver || (!w.benchmarkMode && w.player.lives <= 0))
    ensures r.level.number == if w.level.bossSpawned && w.level.bossDefeated then w.level.number + 1 else w.level.number
    ensures !(w.level.bossSpawned && w.level.bossDefeated) ==> r == w.(gameOver := r.gameOver)
  {
    var w1 := if w.level.bossSpawned && w.level.bossDefeated then NextLevel(w) else w;
    if !w1.benchmarkMode && w1.player.lives <= 0 then w1.(gameOver := true) else w1
  }

  /** The end of a frame keeps the world's invariant. */
  lemma EndFrameKeepsWorldOk(w: World)
    requires WorldOk(w)
    ensures WorldOk(EndFrame(w))
  {
    NextLevelKeepsWorldOk(w);
  }
}
