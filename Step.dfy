/** A whole frame of the game: initGame (src/game.c:24-73) and updateGame
    (src/game.c:75-423) as the composition of the phases the other modules
    define, and what a frame, and a run of frames, keeps. */
module Step {
  import opened GameTypes
  import opened Pools
  import opened World
  import opened Motion
  import opened Collisions
  import opened Progression

  /** initGame (src/game.c:24-73): the player back at the left with three
      lives and no score, the first level, both timers at zero, every pool
      emptied (only the flags are cleared) and normal play. */
  function Init(w: World): (r: World)
    ensures r.player.lives == 3 && r.player.score == 0 && r.level.number == 1
    ensures !r.gameOver && !r.paused && !r.benchmarkMode && r.draws == w.draws
    ensures r.player.x == 50.0 && r.player.y == ScreenHeight / 2.0
    ensures r.enemySpawnTimer == 0.0 && r.powerupSpawnTimer == 0.0
    ensures r.level.scrollSpeed == 50.0 && r.level.enemySpawnRate == 3.0
    ensures |r.bullets| == |w.bullets| && |r.enemies| == |w.enemies| && |r.enemyBullets| == |w.enemyBullets|
    ensures |r.powerups| == |w.powerups| && |r.explosions| == |w.explosions|
  {
    w.(player := Player(50.0, ScreenHeight / 2.0, PlayerWidth, PlayerHeight, Direction.None, 3,
                        false, false, 0.0, 0, 0.0),
       level := Level(1, 50.0, 3.0, 0.0, 0.0, 0.0, false, false),
       enemySpawnTimer := 0.0, powerupSpawnTimer := 0.0,
       bullets := ClearBullets(w.bullets),
       enemies := ClearEnemies(w.enemies),
       enemyBullets := ClearBullets(w.enemyBullets),
       powerups := ClearPowerups(w.powerups),
       explosions := ClearExplosions(w.explosions),
       gameOver := false, paused := false, benchmarkMode := false, benchmarkSpawnBand := 0.10)
  }

  /** Every pool of capacity size: the fixed arrays of the game state. */
  predicate PoolsSized(w: World)
  {
    && |w.bullets| == MaxBullets && |w.enemies| == MaxEnemies && |w.enemyBullets| == MaxEnemyBullets
    && |w.powerups| == MaxPowerups && |w.explosions| == MaxExplosions
  }

  /** A new game is a valid world with the player on screen holding no
      power, three lives, no score, at the first level, in a game that is
      running. */
  lemma InitOk(w: World)
    requires PoolsSized(w)
    requires forall i :: 0 <= i < |w.enemies| ==> w.enemies[i].score >= 0
    ensures var r := Init(w);
            && WorldOk(r) && PlayerInBounds(r.player) && PowerupTimed(r.player)
            && r.player.lives == 3 && r.player.score == 0 && r.level.number == 1
            && !r.gameOver && !r.paused && !r.benchmarkMode
            && !r.level.bossSpawned && !r.level.bossDefeated
  {
  }

  /** A new game has nothing on screen: every pool is empty. */
  lemma InitEmpty(w: World)
    ensures var r := Init(w);
            && CountTrue(BulletFlags(r.bullets)) == 0 && CountTrue(EnemyFlags(r.enemies)) == 0
            && CountTrue(BulletFlags(r.enemyBullets)) == 0 && CountTrue(PowerupFlags(r.powerups)) == 0
            && CountTrue(ExplosionFlags(r.explosions)) == 0
  {
    var r := Init(w);
    CountTruePrefix(BulletFlags(r.bullets), 0);
    CountTruePrefix(EnemyFlags(r.enemies), 0);
    CountTruePrefix(BulletFlags(r.enemyBullets), 0);
    CountTruePrefix(PowerupFlags(r.powerups), 0);
    CountTruePrefix(ExplosionFlags(r.explosions), 0);
  }

  /** Starting again from a finished game gives the same new game as
      starting from any other state with the same pool contents. */
  lemma InitForgetsProgress(w: World, v: World)
    requires |w.bullets| == |v.bullets| && |w.enemies| == |v.enemies| && |w.enemyBullets| == |v.enemyBullets|
    requires |w.powerups| == |v.powerups| && |w.explosions| == |v.explosions|
    requires forall i :: 0 <= i < |w.bullets| ==> w.bullets[i].(active := false) == v.bullets[i].(active := false)
    requires forall i :: 0 <= i < |w.enemies| ==> w.enemies[i].(active := false) == v.enemies[i].(active := false)
    requires forall i :: 0 <= i < |w.enemyBullets| ==> w.enemyBullets[i].(active := false) == v.enemyBullets[i].(active := false)
    requires forall i :: 0 <= i < |w.powerups| ==> w.powerups[i].(active := false) == v.powerups[i].(active := false)
    requires forall i :: 0 <= i < |w.explosions| ==> w.explosions[i].(active := false) == v.explosions[i].(active := false)
    requires w.draws == v.draws
    ensures Init(w) == Init(v)
  {
  }

  /** The player and bullet passes keep the invariant and the player on
      screen; in the benchmark no bullet appears or goes. */
  lemma MoveShotsKeeps(w: World, dt: real, rand: Oracle)
    requires WorldOk(w)
    ensures var r := MoveShots(w, dt, rand);
            && WorldOk(r) && PlayerInBounds(r.player)
            && (PowerupTimed(w.player) ==> PowerupTimed(r.player))
            && r.player.score == w.player.score && r.player.lives == w.player.lives
            && (w.benchmarkMode ==>
                  BulletFlags(r.bullets) == BulletFlags(w.bullets) && BulletFlags(r.enemyBullets) == BulletFlags(w.enemyBullets))
            && r.enemies == w.enemies && r.powerups == w.powerups && r.explosions == w.explosions
  {
    var r := MoveShots(w, dt, rand);
    if w.benchmarkMode {
      assert BulletFlags(r.bullets) == BulletFlags(w.bullets);
      assert BulletFlags(r.enemyBullets) == BulletFlags(w.enemyBullets);
    }
  }

  /** The enemy pass keeps the invariant; in the benchmark no enemy appears
      or goes and no enemy bullet goes. */
  lemma StepEnemiesKeeps(w: World, dt: real, rand: Oracle, sin: Wave)
    requires WorldOk(w)
    ensures var r := StepEnemies(w, dt, rand, sin, |w.enemies|);
            && WorldOk(r)
            && (w.benchmarkMode ==> EnemyFlags(r.enemies) == EnemyFlags(w.enemies))
            && (forall j :: 0 <= j < |w.enemyBullets| && w.enemyBullets[j].active ==> r.enemyBullets[j].active)
            && r.bullets == w.bullets && r.powerups == w.powerups && r.explosions == w.explosions
  {
    var r := StepEnemies(w, dt, rand, sin, |w.enemies|);
    StepEnemiesCount(w, dt, rand, sin);
    StepEnemiesReached(w, dt, rand, sin, |w.enemies|);
    forall j | 0 <= j < |r.enemies| ensures EnemyShaped(r.enemies[j]) && r.enemies[j].score >= 0 {
      assert EnemyShaped(w.enemies[j]) && Reached(w.enemies[j], r.enemies[j], w.benchmarkMode);
    }
  }

  /** The powerup and explosion passes keep the invariant; in the
      benchmark neither pool gains or loses an object. */
  lemma MoveItemsKeeps(w: World, dt: real, rand: Oracle)
    requires WorldOk(w)
    ensures var r := MoveItems(w, dt, rand);
            && WorldOk(r)
            && (w.benchmarkMode ==>
                  PowerupFlags(r.powerups) == PowerupFlags(w.powerups) && ExplosionFlags(r.explosions) == ExplosionFlags(w.explosions))
            && r.bullets == w.bullets && r.enemies == w.enemies && r.enemyBullets == w.enemyBullets
  {
    var r := MoveItems(w, dt, rand);
    forall j | 0 <= j < |r.powerups| ensures PowerupShaped(r.powerups[j]) {
      assert PowerupShaped(w.powerups[j]);
    }
    if w.benchmarkMode {
      assert PowerupFlags(r.powerups) == PowerupFlags(w.powerups);
      assert ExplosionFlags(r.explosions) == ExplosionFlags(w.explosions);
    }
  }

  /** What the motion phase keeps: the world invariant, the player on
      screen, the timed-power rule, the score and lives. */
  lemma MoveEntitiesKeeps(w: World, dt: real, rand: Oracle, sin: Wave)
    requires WorldOk(w)
    ensures var r := MoveEntities(w, dt, rand, sin);
            && WorldOk(r) && PlayerInBounds(r.player)
            && (PowerupTimed(w.player) ==> PowerupTimed(r.player))
            && r.player.score == w.player.score && r.player.lives == w.player.lives
  {
    var w1 := MoveShots(w, dt, rand);
    MoveShotsKeeps(w, dt, rand);
    var w2 := StepEnemies(w1, dt, rand, sin, |w1.enemies|);
    StepEnemiesKeeps(w1, dt, rand, sin);
    MoveItemsKeeps(w2, dt, rand);
  }

  /** In the benchmark the motion phase keeps the population of every pool
      but the enemy bullets, which only grow: enemies go on firing. */
  lemma MoveEntitiesBenchmark(w: World, dt: real, rand: Oracle, sin: Wave)
    requires WorldOk(w) && w.benchmarkMode
    ensures var r := MoveEntities(w, dt, rand, sin);
            && BulletFlags(r.bullets) == BulletFlags(w.bullets)
            && (forall j :: 0 <= j < |w.enemyBullets| && w.enemyBullets[j].active ==> r.enemyBullets[j].active)
            && EnemyFlags(r.enemies) == EnemyFlags(w.enemies)
            && PowerupFlags(r.powerups) == PowerupFlags(w.powerups)
            && ExplosionFlags(r.explosions) == ExplosionFlags(w.explosions)
  {
    var w1 := MoveShots(w, dt, rand);
    MoveShotsKeeps(w, dt, rand);
    var w2 := StepEnemies(w1, dt, rand, sin, |w1.enemies|);
    StepEnemiesKeeps(w1, dt, rand, sin);
    MoveItemsKeeps(w2, dt, rand);
  }

  /** updateGame (src/game.c:75-423): nothing happens while the game is over
      or paused; otherwise the motion, the spawn timers, the scroll, the
      collisions (not in the benchmark), then the level change and the
      game-over rule. */
  function Update(w: World, dt: real, rand: Oracle, sin: Wave): (r: World)
    ensures r.draws >= w.draws && r.benchmarkMode == w.benchmarkMode
  {
    if w.gameOver || w.paused then w
    else
      var m := MoveEntities(w, dt, rand, sin);
      var t := SpawnTimers(m, dt, rand);
      var s := t.(level := Scroll(t.level, dt));
      var c := if s.benchmarkMode then s else Collide(s, rand);
      EndFrame(c)
  }

  /** A frame of a game that is over or paused changes nothing. */
  lemma UpdateHalted(w: World, dt: real, rand: Oracle, sin: Wave)
    requires w.gameOver || w.paused
    ensures Update(w, dt, rand, sin) == w
  {
  }

  /** What a running frame keeps: the world invariant, the player on
      screen, the timed-power rule and a score that never drops; afterwards
      no defeated boss is left pending, and the game is over exactly when it
      was, or the player has no lives left outside the benchmark. */
  lemma UpdateKeeps(w: World, dt: real, rand: Oracle, sin: Wave)
    requires WorldOk(w)
    requires !w.gameOver && !w.paused
    ensures var r := Update(w, dt, rand, sin);
            && WorldOk(r) && PlayerInBounds(r.player) && (PowerupTimed(w.player) ==> PowerupTimed(r.player))
            && r.player.score >= w.player.score
            && !(r.level.bossSpawned && r.level.bossDefeated)
            && r.benchmarkMode == w.benchmarkMode && !r.paused
            && (r.gameOver <==> !w.benchmarkMode && r.player.lives <= 0)
  {
    var m := MoveEntities(w, dt, rand, sin);
    MoveEntitiesKeeps(w, dt, rand, sin);
    TimersKeepWorldOk(m, dt, rand);
    var t := SpawnTimers(m, dt, rand);
    var s := t.(level := Scroll(t.level, dt));
    assert WorldOk(s);
    var c := if s.benchmarkMode then s else Collide(s, rand);
    if !s.benchmarkMode {
      CollideEffects(s, rand);
    }
    EndFrameKeepsWorldOk(c);
  }

  /** Any frame, running or halted, keeps the invariant, the timed-power
      rule and the score's growth. */
  lemma UpdateFrame(w: World, dt: real, rand: Oracle, sin: Wave)
    requires WorldOk(w)
    ensures var r := Update(w, dt, rand, sin);
            && WorldOk(r) && (PowerupTimed(w.player) ==> PowerupTimed(r.player))
            && r.player.score >= w.player.score
  {
    if !w.gameOver && !w.paused {
      UpdateKeeps(w, dt, rand, sin);
    }
  }

  /** The benchmark's load from `w` is kept in `v`: the player bullets,
      enemies, powerups and explosions occupy the same slots, and every
      enemy bullet of `w` is still in flight. */
  predicate LoadKept(w: World, v: World)
  {
    && |v.enemyBullets| == |w.enemyBullets|
    && BulletFlags(v.bullets) == BulletFlags(w.bullets)
    && (forall j :: 0 <= j < |w.enemyBullets| && w.enemyBullets[j].active ==> v.enemyBullets[j].active)
    && EnemyFlags(v.enemies) == EnemyFlags(w.enemies)
    && PowerupFlags(v.powerups) == PowerupFlags(w.powerups)
    && ExplosionFlags(v.explosions) == ExplosionFlags(w.explosions)
  }

  /** A benchmark frame keeps its load when no level change is pending
      (the benchmark never raises the boss flag). */
  lemma UpdateBenchmarkStable(w: World, dt: real, rand: Oracle, sin: Wave)
    requires WorldOk(w) && w.benchmarkMode && !(w.level.bossSpawned && w.level.bossDefeated)
    ensures var r := Update(w, dt, rand, sin);
            && WorldOk(r) && r.benchmarkMode && r.gameOver == w.gameOver && r.level.number == w.level.number
            && r.level.bossSpawned == w.level.bossSpawned && r.level.bossDefeated == w.level.bossDefeated
            && LoadKept(w, r)
  {
    if !w.gameOver && !w.paused {
      MoveEntitiesKeeps(w, dt, rand, sin);
      MoveEntitiesBenchmark(w, dt, rand, sin);
    }
  }

  /** `n` applications of a step. */
  function Iterate(f: World -> World, w: World, n: nat): (r: World)
    ensures n == 0 ==> r == w
    decreases n
  {
    if n == 0 then w else Iterate(f, f(w), n - 1)
  }

  /** A property every step keeps holds after any number of steps. */
  lemma {:induction false} IterateKeeps(f: World -> World, inv: World -> bool, w: World, n: nat)
    requires inv(w)
    requires forall v {:trigger f(v)} :: inv(v) ==> inv(f(v))
    ensures inv(Iterate(f, w, n))
    decreases n
  {
    if n > 0 {
      assert inv(f(w));
      IterateKeeps(f, inv, f(w), n - 1);
    }
  }

  /** One frame of length `dt`, as a step. */
  function Frame(dt: real, rand: Oracle, sin: Wave): World -> World
  {
    v => Update(v, dt, rand, sin)
  }

  /** `n` frames of the same length, the game loop of the driver. */
  function Steps(w: World, dt: real, rand: Oracle, sin: Wave, n: nat): (r: World)
  {
    Iterate(Frame(dt, rand, sin), w, n)
  }

  /** Over any number of frames the world stays valid, the timed-power rule
      holds and the score never drops. */
  lemma StepsKeep(w: World, dt: real, rand: Oracle, sin: Wave, n: nat)
    requires WorldOk(w) && PowerupTimed(w.player)
    ensures var r := Steps(w, dt, rand, sin, n);
            && WorldOk(r) && PowerupTimed(r.player) && r.player.score >= w.player.score
  {
    var f := Frame(dt, rand, sin);
    var s0 := w.player.score;
    var inv := (v: World) => WorldOk(v) && PowerupTimed(v.player) && v.player.score >= s0;
    forall v | inv(v) ensures inv(f(v)) {
      UpdateFrame(v, dt, rand, sin);
    }
    IterateKeeps(f, inv, w, n);
  }

  /** A game once over stays over, whatever the frames. */
  lemma StepsGameOverFinal(w: World, dt: real, rand: Oracle, sin: Wave, n: nat)
    requires w.gameOver
    ensures Steps(w, dt, rand, sin, n) == w
  {
    var f := Frame(dt, rand, sin);
    var inv := (v: World) => v == w;
    forall v | inv(v) ensures inv(f(v)) {
      UpdateHalted(v, dt, rand, sin);
    }
    IterateKeeps(f, inv, w, n);
  }

  /** Over any number of benchmark frames the load is kept: the benchmark
      is a steady load, save for enemy bullets, which can only build up. */
  lemma StepsBenchmarkStable(w: World, dt: real, rand: Oracle, sin: Wave, n: nat)
    requires WorldOk(w) && w.benchmarkMode && !(w.level.bossSpawned && w.level.bossDefeated)
    ensures var r := Steps(w, dt, rand, sin, n);
            r.benchmarkMode && LoadKept(w, r)
  {
    var f := Frame(dt, rand, sin);
    var inv := (v: World) =>
      WorldOk(v) && v.benchmarkMode && !(v.level.bossSpawned && v.level.bossDefeated) && LoadKept(w, v);
    forall v | inv(v) ensures inv(f(v)) {
      UpdateBenchmarkStable(v, dt, rand, sin);
    }
    IterateKeeps(f, inv, w, n);
  }
}
