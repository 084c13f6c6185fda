/** prepareBenchmarkScene of src/game.c (lines 794-958): the benchmark
    fills the first `cap * density / 100` slots of every pool and clears
    the rest, puts up to ten bosses first in the enemy pool, and switches
    the game into benchmark mode. */
module Benchmark {
  import opened GameTypes
  import opened Pools
  import opened World
  import opened Motion
  import opened Progression

  /** The density clamp into [0, 100] (src/game.c:795-796, src/main.c:224-225). */
  function ClampDensity(d: int): (r: int)
    ensures 0 <= r <= 100
    ensures 0 <= d <= 100 ==> r == d
    ensures d < 0 ==> r == 0
    ensures d > 100 ==> r == 100
  {
    if d < 0 then 0 else if d > 100 then 100 else d
  }

  /** How many slots of a pool of `cap` are filled at `density` percent
      (src/game.c:808-812): C's integer division, rounding down. */
  function Target(cap: nat, density: int): (n: nat)
    requires 0 <= density <= 100
    ensures n <= cap
    ensures n * 100 <= cap * density < (n + 1) * 100
  {
    cap * density / 100
  }

  /** The number of bosses: ten, or fewer if fewer enemies are placed
      (src/game.c:840-845). */
  function BossTarget(target: nat): (b: nat)
    ensures b <= target && b <= 10
    ensures target > 0 ==> b >= 1
    ensures b == target || b == 10
  {
    if target > 10 then 10 else target
  }

  // ----- Bullets -----

  /** A benchmark bullet (src/game.c:814-838): the player's fly left at 300
      from anywhere across the screen, the enemies' fly left at 200 from the
      right half; both at a height in [2, 317]. */
  function SeedShot(b: Bullet, side: Side, rand: Oracle, k: nat): (r: Bullet)
    ensures r.active && r.width == BulletWidth && r.height == BulletHeight
    ensures side == Players ==> r.speed == -BulletSpeed && 0.0 <= r.x < ScreenWidth
    ensures side == Enemies ==> r.speed == EnemyBulletSpeed && ScreenWidth / 2.0 < r.x <= ScreenWidth
    ensures 2.0 <= r.y < 318.0
  {
    var x := if side == Players then (rand(k) % 480) as real else (480 - rand(k) % 240) as real;
    Bullet(x, (rand(k + 1) % 316) as real + 2.0, BulletWidth, BulletHeight,
           if side == Players then -BulletSpeed else EnemyBulletSpeed, true)
  }

  /** The bullet loop over slots 0 .. n-1: slots below the target are
      seeded, two draws each, the others cleared. */
  function SeedShots(s: seq<Bullet>, side: Side, target: nat, rand: Oracle, k: nat, n: nat): (r: (seq<Bullet>, nat))
    requires n <= |s|
    ensures |r.0| == |s|
    ensures r.1 == k + 2 * (if n < target then n else target)
  {
    if n == 0 then (s, k)
    else
      var v := SeedShots(s, side, target, rand, k, n - 1);
      if n - 1 < target then (v.0[n - 1 := SeedShot(v.0[n - 1], side, rand, v.1)], v.1 + 2)
      else (v.0[n - 1 := v.0[n - 1].(active := false)], v.1)
  }

  /** The bullet loop leaves the slots from n on alone, seeds the slots
      below the target, each from its own two draws, and clears the rest. */
  lemma {:induction false} SeedShotsShape(s: seq<Bullet>, side: Side, target: nat, rand: Oracle, k: nat, n: nat)
    requires n <= |s|
    ensures var r := SeedShots(s, side, target, rand, k, n);
            && (forall j :: n <= j < |s| ==> r.0[j] == s[j])
            && (forall j :: 0 <= j < n ==> r.0[j].active == (j < target))
            && (forall j :: 0 <= j < n && j < target ==> r.0[j] == SeedShot(s[j], side, rand, k + 2 * j))
            && (forall j :: 0 <= j < n && j >= target ==> r.0[j] == s[j].(active := false))
  {
    if n > 0 {
      SeedShotsShape(s, side, target, rand, k, n - 1);
    }
  }

  /** One more slot of the bullet loop. */
  lemma SeedShotsNext(s: seq<Bullet>, side: Side, target: nat, rand: Oracle, k: nat, i: nat, v: (seq<Bullet>, nat))
    requires i < |s| && v == SeedShots(s, side, target, rand, k, i)
    ensures SeedShots(s, side, target, rand, k, i + 1) ==
            if i < target then (v.0[i := SeedShot(v.0[i], side, rand, v.1)], v.1 + 2)
            else (v.0[i := v.0[i].(active := false)], v.1)
  {
  }

  // ----- Enemies -----

  /** The enemy a non-boss benchmark slot gets, before its position
      (src/game.c:862-898): the regular spawn's three types with the
      benchmark's faster speeds. */
  function SeedBody(e: Enemy, t: EnemyType, number: int, mp: real): (r: Enemy)
    ensures r.active && r.kind == t && EnemyShaped(r)
    ensures t == Boss ==> r.health == 100 && r.score == 1000 && r.bulletCooldown == 0.5 && r.movementPattern == 0.0
    ensures t != Boss ==> r.health >= 1 && r.score >= 30
  {
    var e1 := e.(kind := t, active := true, movementPattern := mp);
    var n := number as real;
    match t
    case Small => e1.(width := 16.0, height := 12.0, speed := 90.0 + n * 5.0, health := 1, score := 30)
    case Medium => e1.(width := 24.0, height := 16.0, speed := 70.0 + n * 3.0, health := 2, score := 50)
    case Large => e1.(width := 32.0, height := 24.0, speed := 50.0 + n * 2.0, health := 3, score := 150,
                      bulletCooldown := 0.2)
    case Boss => e1.(width := 64.0, height := 48.0, speed := 20.0, health := 100, score := 1000,
                     movementPattern := 0.0, bulletCooldown := 0.5)
  }

  /** The left edge of the boss band, which is three times as wide as the
      spawn band but between 0.3 and 1 of the screen (src/game.c:901-908). */
  function BossBandLeft(band: real): (x: real)
    ensures 0.0 <= x <= ScreenWidth * 0.7
  {
    ScreenWidth * (1.0 - Clamp(EffectiveBand(band) * 3.0, 0.3, 1.0))
  }

  /** The x of boss number `i` of `bosses` (src/game.c:905-918): the band is
      cut into equal slots and boss i sits 40-60% into slot i. */
  function BossX(band: real, i: nat, bosses: nat, draw: nat): (x: real)
    requires i < bosses
  {
    var exMin := BossBandLeft(band);
    var exMax := ScreenWidth - 64.0 / 2.0;
    var bandWidth := if exMax - exMin < 1.0 then 1.0 else exMax - exMin;
    var slot := bandWidth / bosses as real;
    exMin + slot * i as real + slot * 0.4 + slot * 0.2 * ((draw % 100) as real / 100.0)
  }

  /** Bosses stand in their own slots across the band, left to right, each
      inside the band and in front of the next one. */
  lemma BossesSpreadAcrossBand(band: real, i: nat, bosses: nat, d1: nat, d2: nat)
    requires i + 1 < bosses
    ensures BossX(band, i, bosses, d1) < BossX(band, i + 1, bosses, d2)
    ensures BossBandLeft(band) < BossX(band, i, bosses, d1) < ScreenWidth - 32.0
  {
    var exMin := BossBandLeft(band);
    var bandWidth := if (ScreenWidth - 32.0) - exMin < 1.0 then 1.0 else (ScreenWidth - 32.0) - exMin;
    var slot := bandWidth / bosses as real;
    var f1 := (d1 % 100) as real / 100.0;
    var f2 := (d2 % 100) as real / 100.0;
    var x1 := i as real + 0.4 + 0.2 * f1;
    var x2 := i as real + 1.4 + 0.2 * f2;
    var a := BossX(band, i, bosses, d1);
    var b := BossX(band, i + 1, bosses, d2);
    assert 0.0 <= f1 < 1.0 && 0.0 <= f2 < 1.0;
    assert slot > 0.0;
    assert a == exMin + slot * x1;
    assert b == exMin + slot * x2;
    assert x1 < x2 && x1 < bosses as real;
    SlotOrder(slot, x1, x2);
    SlotOrder(slot, x1, bosses as real);
    assert slot * bosses as real == bandWidth;
  }

  /** Scaling by a positive slot width keeps the order. */
  lemma SlotOrder(slot: real, x: real, y: real)
    requires slot > 0.0 && x < y
    ensures slot * x < slot * y
  {
  }

  /** The x of enemy slot `i`: a boss in its own slot of the boss band
      (its index among the bosses is `i`, as they come first), any other
      enemy in the spawn band, no further right than half its width from
      the edge (src/game.c:901-923). */
  function PlaceX(body: Enemy, i: nat, bosses: nat, band: real, draw: nat): (x: real)
    ensures i >= bosses ==> ScreenWidth * (1.0 - EffectiveBand(band)) <= x
    ensures i >= bosses && ScreenWidth * (1.0 - EffectiveBand(band)) <= ScreenWidth - body.width / 2.0 ==>
            x <= ScreenWidth - body.width / 2.0
  {
    if i < bosses then BossX(band, i, bosses, draw)
    else
      var exMin := ScreenWidth * (1.0 - EffectiveBand(band));
      var exMax := ScreenWidth - body.width / 2.0;
      exMin + CMod(draw, Trunc(exMax - exMin + 1.0)) as real
  }

  /** The y of a placed enemy: from half its height down to its height
      above the bottom (src/game.c:924-926). */
  function PlaceY(body: Enemy, draw: nat): (y: real)
    ensures 0.0 <= body.height <= 200.0 ==> body.height / 2.0 <= y <= ScreenHeight - body.height
  {
    var eyMin := body.height / 2.0;
    var eyMax := ScreenHeight - body.height;
    eyMin + CMod(draw, Trunc(eyMax - eyMin + 1.0)) as real
  }

  /** A placed enemy of type `t` in slot `i`, the next draw being `k`:
      the movement pattern, the x and the y, three draws in all
      (src/game.c:862-926). */
  function PlaceBody(e: Enemy, t: EnemyType, i: nat, bosses: nat, number: int, band: real, rand: Oracle, k: nat): (r: (Enemy, nat))
    ensures r.0.active && EnemyShaped(r.0) && r.0.kind == t && r.1 == k + 3 && r.0.score >= 30
    ensures t == Boss ==> r.0.health == 100 && r.0.score == 1000
    ensures r.0.height / 2.0 <= r.0.y <= ScreenHeight - r.0.height
  {
    var body := SeedBody(e, t, number, (rand(k) % 628) as real / 100.0);
    (body.(x := PlaceX(body, i, bosses, band, rand(k + 1)), y := PlaceY(body, rand(k + 2))), k + 3)
  }

  /** Enemy slot `i` of the benchmark, the next draw being `k`, with the
      number of draws it makes (src/game.c:848-928): the first `bosses`
      slots hold bosses, every other slot draws its type first. */
  function SeedEnemy(e: Enemy, i: nat, bosses: nat, number: int, band: real, rand: Oracle, k: nat): (r: (Enemy, nat))
    ensures r.0.active && EnemyShaped(r.0) && r.0.score >= 30
    ensures r.0.kind == Boss <==> i < bosses
    ensures i < bosses ==> r.0.health == 100 && r.0.score == 1000 && r.1 == k + 3
    ensures i >= bosses ==> r.0.kind == SpawnType(rand(k) % 100) && r.1 == k + 4
    ensures r.0.height / 2.0 <= r.0.y <= ScreenHeight - r.0.height
  {
    if i < bosses then PlaceBody(e, Boss, i, bosses, number, band, rand, k)
    else PlaceBody(e, SpawnType(rand(k) % 100), i, bosses, number, band, rand, k + 1)
  }

  /** What a placed enemy in slot j is: shaped, worth at least 30, a boss
      exactly in the first slots, with 100 health and worth 1000 there,
      and on screen vertically. */
  predicate PlacedAs(e: Enemy, j: nat, target: nat)
  {
    && EnemyShaped(e) && e.score >= 30
    && (e.kind == Boss <==> j < BossTarget(target))
    && (j < BossTarget(target) ==> e.health == 100 && e.score == 1000)
    && e.height / 2.0 <= e.y <= ScreenHeight - e.height
  }

  /** The enemy loop over slots 0 .. n-1. */
  function SeedEnemies(s: seq<Enemy>, target: nat, number: int, band: real, rand: Oracle, k: nat, n: nat): (r: (seq<Enemy>, nat))
    requires n <= |s|
    ensures |r.0| == |s| && r.1 >= k
    ensures forall j :: 0 <= j < n && j < target ==> PlacedAs(r.0[j], j, target)
  {
    if n == 0 then (s, k)
    else
      var v := SeedEnemies(s, target, number, band, rand, k, n - 1);
      if n - 1 < target then
        var e := SeedEnemy(v.0[n - 1], n - 1, BossTarget(target), number, band, rand, v.1);
        (v.0[n - 1 := e.0], e.1)
      else (v.0[n - 1 := v.0[n - 1].(active := false)], v.1)
  }

  /** The enemy loop leaves the slots from n on alone, places an enemy in
      every slot below the target and clears the rest. */
  lemma {:induction false} SeedEnemiesShape(s: seq<Enemy>, target: nat, number: int, band: real, rand: Oracle, k: nat, n: nat)
    requires n <= |s|
    ensures var r := SeedEnemies(s, target, number, band, rand, k, n);
            && (forall j :: n <= j < |s| ==> r.0[j] == s[j])
            && (forall j :: 0 <= j < n ==> r.0[j].active == (j < target))
            && (forall j :: 0 <= j < n && j >= target ==> r.0[j] == s[j].(active := false))
  {
    if n > 0 {
      SeedEnemiesShape(s, target, number, band, rand, k, n - 1);
    }
  }

  /** One more slot of the enemy loop. */
  lemma SeedEnemiesNext(s: seq<Enemy>, target: nat, number: int, band: real, rand: Oracle, k: nat, i: nat,
                        v: (seq<Enemy>, nat))
    requires i < |s| && v == SeedEnemies(s, target, number, band, rand, k, i)
    ensures SeedEnemies(s, target, number, band, rand, k, i + 1) ==
            if i < target then
              var e := SeedEnemy(v.0[i], i, BossTarget(target), number, band, rand, v.1);
              (v.0[i := e.0], e.1)
            else (v.0[i := v.0[i].(active := false)], v.1)
  {
  }

  // ----- Powerups and explosions -----

  /** A benchmark powerup (src/game.c:931-943): a random type, in the right
      third of the screen, at a height in [8, 311]. */
  function SeedPowerup(p: Powerup, rand: Oracle, k: nat): (r: Powerup)
    ensures r.active && PowerupShaped(r) && r.speed == 60.0
    ensures ScreenWidth - 160.0 < r.x <= ScreenWidth && 8.0 <= r.y < 312.0
  {
    Powerup((480 - rand(k + 1) % 160) as real, (rand(k + 2) % 304) as real + 8.0, PowerupWidth, PowerupHeight,
            PowerupFromOrdinal(rand(k) % 3), true, 60.0)
  }

  /** The powerup loop over slots 0 .. n-1, three draws per seeded slot. */
  function SeedPowerups(s: seq<Powerup>, target: nat, rand: Oracle, k: nat, n: nat): (r: (seq<Powerup>, nat))
    requires n <= |s|
    ensures |r.0| == |s|
    ensures r.1 == k + 3 * (if n < target then n else target)
  {
    if n == 0 then (s, k)
    else
      var v := SeedPowerups(s, target, rand, k, n - 1);
      if n - 1 < target then (v.0[n - 1 := SeedPowerup(v.0[n - 1], rand, v.1)], v.1 + 3)
      else (v.0[n - 1 := v.0[n - 1].(active := false)], v.1)
  }

  /** The powerup loop seeds the slots below the target, each from its own
      three draws, and clears the rest. */
  lemma {:induction false} SeedPowerupsShape(s: seq<Powerup>, target: nat, rand: Oracle, k: nat, n: nat)
    requires n <= |s|
    ensures var r := SeedPowerups(s, target, rand, k, n);
            && (forall j :: n <= j < |s| ==> r.0[j] == s[j])
            && (forall j :: 0 <= j < n ==> r.0[j].active == (j < target))
            && (forall j :: 0 <= j < n && j < target ==> r.0[j] == SeedPowerup(s[j], rand, k + 3 * j))
            && (forall j :: 0 <= j < n && j >= target ==> r.0[j] == s[j].(active := false))
  {
    if n > 0 {
      SeedPowerupsShape(s, target, rand, k, n - 1);
    }
  }

  /** One more slot of the powerup loop. */
  lemma SeedPowerupsNext(s: seq<Powerup>, target: nat, rand: Oracle, k: nat, i: nat, v: (seq<Powerup>, nat))
    requires i < |s| && v == SeedPowerups(s, target, rand, k, i)
    ensures SeedPowerups(s, target, rand, k, i + 1) ==
            if i < target then (v.0[i := SeedPowerup(v.0[i], rand, v.1)], v.1 + 3)
            else (v.0[i := v.0[i].(active := false)], v.1)
  {
  }

  /** A benchmark explosion (src/game.c:945-957): 24 wide, 0.6 s long, part
      way through its life, anywhere on the screen. */
  function SeedExplosion(e: Explosion, rand: Oracle, k: nat): (r: Explosion)
    ensures r.active && r.width == 24.0 && r.height == 24.0 && r.lifespan == 0.6
    ensures 0.0 <= r.currentLife < r.lifespan
  {
    Explosion((rand(k + 1) % 480) as real, (rand(k + 2) % 320) as real, 24.0, 24.0, 0.6,
              0.6 * (rand(k) % 100) as real / 100.0, true)
  }

  /** The explosion loop over slots 0 .. n-1, three draws per seeded slot. */
  function SeedExplosions(s: seq<Explosion>, target: nat, rand: Oracle, k: nat, n: nat): (r: (seq<Explosion>, nat))
    requires n <= |s|
    ensures |r.0| == |s|
    ensures r.1 == k + 3 * (if n < target then n else target)
  {
    if n == 0 then (s, k)
    else
      var v := SeedExplosions(s, target, rand, k, n - 1);
      if n - 1 < target then (v.0[n - 1 := SeedExplosion(v.0[n - 1], rand, v.1)], v.1 + 3)
      else (v.0[n - 1 := v.0[n - 1].(active := false)], v.1)
  }

  /** The explosion loop seeds the slots below the target, each from its
      own three draws, and clears the rest. */
  lemma {:induction false} SeedExplosionsShape(s: seq<Explosion>, target: nat, rand: Oracle, k: nat, n: nat)
    requires n <= |s|
    ensures var r := SeedExplosions(s, target, rand, k, n);
            && (forall j :: n <= j < |s| ==> r.0[j] == s[j])
            && (forall j :: 0 <= j < n ==> r.0[j].active == (j < target))
            && (forall j :: 0 <= j < n && j < target ==> r.0[j] == SeedExplosion(s[j], rand, k + 3 * j))
            && (forall j :: 0 <= j < n && j >= target ==> r.0[j] == s[j].(active := false))
  {
    if n > 0 {
      SeedExplosionsShape(s, target, rand, k, n - 1);
    }
  }

  /** One more slot of the explosion loop. */
  lemma SeedExplosionsNext(s: seq<Explosion>, target: nat, rand: Oracle, k: nat, i: nat, v: (seq<Explosion>, nat))
    requires i < |s| && v == SeedExplosions(s, target, rand, k, i)
    ensures SeedExplosions(s, target, rand, k, i + 1) ==
            if i < target then (v.0[i := SeedExplosion(v.0[i], rand, v.1)], v.1 + 3)
            else (v.0[i := v.0[i].(active := false)], v.1)
  {
  }

  // ----- The scene -----

  /** The settings the benchmark starts from (src/game.c:798-806). */
  function BenchmarkSettings(w: World): World
  {
    w.(benchmarkMode := true, benchmarkSpawnBand := 0.10,
       player := w.player.(lives := 9999, bulletCooldown := 0.0),
       level := w.level.(scrollSpeed := 80.0, enemySpawnRate := 0.15),
       enemySpawnTimer := 0.0, powerupSpawnTimer := 2.0)
  }

  /** The five loops of the benchmark as steps on the world, in their
      order, each threading the draws of rand() on to the next. */
  function BulletsSeeded(w: World, target: nat, rand: Oracle): (r: World)
    ensures r == w.(bullets := r.bullets, draws := r.draws) && |r.bullets| == |w.bullets|
  {
    var b := SeedShots(w.bullets, Players, target, rand, w.draws, |w.bullets|);
    w.(bullets := b.0, draws := b.1)
  }

  function EnemyBulletsSeeded(w: World, target: nat, rand: Oracle): (r: World)
    ensures r == w.(enemyBullets := r.enemyBullets, draws := r.draws) && |r.enemyBullets| == |w.enemyBullets|
  {
    var b := SeedShots(w.enemyBullets, Enemies, target, rand, w.draws, |w.enemyBullets|);
    w.(enemyBullets := b.0, draws := b.1)
  }

  function EnemiesSeeded(w: World, target: nat, rand: Oracle): (r: World)
    ensures r == w.(enemies := r.enemies, draws := r.draws) && |r.enemies| == |w.enemies|
  {
    var e := SeedEnemies(w.enemies, target, w.level.number, w.benchmarkSpawnBand, rand, w.draws, |w.enemies|);
    w.(enemies := e.0, draws := e.1)
  }

  function PowerupsSeeded(w: World, target: nat, rand: Oracle): (r: World)
    ensures r == w.(powerups := r.powerups, draws := r.draws) && |r.powerups| == |w.powerups|
  {
    var p := SeedPowerups(w.powerups, target, rand, w.draws, |w.powerups|);
    w.(powerups := p.0, draws := p.1)
  }

  function ExplosionsSeeded(w: World, target: nat, rand: Oracle): (r: World)
    ensures r == w.(explosions := r.explosions, draws := r.draws) && |r.explosions| == |w.explosions|
  {
    var x := SeedExplosions(w.explosions, target, rand, w.draws, |w.explosions|);
    w.(explosions := x.0, draws := x.1)
  }

  /** prepareBenchmarkScene (src/game.c:794-958). */
  function PrepareBenchmark(w: World, density: int, rand: Oracle): (r: World)
    ensures r.benchmarkMode && r.player.lives == 9999 && r.gameOver == w.gameOver && r.paused == w.paused
    ensures r.level.number == w.level.number && r.player.score == w.player.score
    ensures |r.bullets| == |w.bullets| && |r.enemies| == |w.enemies| && |r.enemyBullets| == |w.enemyBullets|
    ensures |r.powerups| == |w.powerups| && |r.explosions| == |w.explosions|
  {
    var d := ClampDensity(density);
    var w1 := BulletsSeeded(BenchmarkSettings(w), Target(MaxBullets, d), rand);
    var w2 := EnemyBulletsSeeded(w1, Target(MaxEnemyBullets, d), rand);
    var w3 := EnemiesSeeded(w2, Target(MaxEnemies, d), rand);
    ExplosionsSeeded(PowerupsSeeded(w3, Target(MaxPowerups, d), rand), Target(MaxExplosions, d), rand)
  }

  /** Placing the enemies keeps the world invariant. */
  lemma EnemiesSeededOk(w: World, target: nat, rand: Oracle)
    requires WorldOk(w)
    ensures WorldOk(EnemiesSeeded(w, target, rand))
  {
    SeedEnemiesShape(w.enemies, target, w.level.number, w.benchmarkSpawnBand, rand, w.draws, |w.enemies|);
    var r := SeedEnemies(w.enemies, target, w.level.number, w.benchmarkSpawnBand, rand, w.draws, |w.enemies|);
    assert r == SeedEnemies(w.enemies, target, w.level.number, w.benchmarkSpawnBand, rand, w.draws, |w.enemies|);
    assert EnemiesSeeded(w, target, rand) == w.(enemies := r.0, draws := r.1);
    forall j | 0 <= j < |r.0|
      ensures EnemyShaped(r.0[j]) && r.0[j].score >= 0
    {
      if j >= target {
        assert r.0[j] == w.enemies[j].(active := false);
      } else {
        assert PlacedAs(r.0[j], j, target);
      }
    }
  }

  /** Seeding the powerups keeps the world invariant. */
  lemma PowerupsSeededOk(w: World, target: nat, rand: Oracle)
    requires WorldOk(w)
    ensures WorldOk(PowerupsSeeded(w, target, rand))
  {
    SeedPowerupsShape(w.powerups, target, rand, w.draws, |w.powerups|);
  }

  /** Each pool ends with exactly its target of active slots. */
  lemma SeedShotsCount(s: seq<Bullet>, side: Side, target: nat, rand: Oracle, k: nat)
    requires target <= |s|
    ensures CountTrue(BulletFlags(SeedShots(s, side, target, rand, k, |s|).0)) == target
  {
    SeedShotsShape(s, side, target, rand, k, |s|);
    CountTruePrefix(BulletFlags(SeedShots(s, side, target, rand, k, |s|).0), target);
  }

  lemma SeedEnemiesCount(s: seq<Enemy>, target: nat, number: int, band: real, rand: Oracle, k: nat)
    requires target <= |s|
    ensures CountTrue(EnemyFlags(SeedEnemies(s, target, number, band, rand, k, |s|).0)) == target
  {
    SeedEnemiesShape(s, target, number, band, rand, k, |s|);
    var r := SeedEnemies(s, target, number, band, rand, k, |s|).0;
    assert r == SeedEnemies(s, target, number, band, rand, k, |s|).0;
    forall i | 0 <= i < |r|
      ensures EnemyFlags(r)[i] == (i < target)
    {
      assert EnemyFlags(r)[i] == r[i].active;
    }
    CountTruePrefix(EnemyFlags(SeedEnemies(s, target, number, band, rand, k, |s|).0), target);
  }

  lemma SeedPowerupsCount(s: seq<Powerup>, target: nat, rand: Oracle, k: nat)
    requires target <= |s|
    ensures CountTrue(PowerupFlags(SeedPowerups(s, target, rand, k, |s|).0)) == target
  {
    SeedPowerupsShape(s, target, rand, k, |s|);
    CountTruePrefix(PowerupFlags(SeedPowerups(s, target, rand, k, |s|).0), target);
  }

  lemma SeedExplosionsCount(s: seq<Explosion>, target: nat, rand: Oracle, k: nat)
    requires target <= |s|
    ensures CountTrue(ExplosionFlags(SeedExplosions(s, target, rand, k, |s|).0)) == target
  {
    SeedExplosionsShape(s, target, rand, k, |s|);
    CountTruePrefix(ExplosionFlags(SeedExplosions(s, target, rand, k, |s|).0), target);
  }

  /** The scene keeps the world invariant and switches to benchmark mode
      with its settings. */
  lemma PrepareBenchmarkOk(w: World, density: int, rand: Oracle)
    requires WorldOk(w)
    ensures var r := PrepareBenchmark(w, density, rand);
            && WorldOk(r)
            && r.benchmarkMode && r.benchmarkSpawnBand == 0.10 && r.player.lives == 9999
            && r.player.bulletCooldown == 0.0
            && r.level.scrollSpeed == 80.0 && r.level.enemySpawnRate == 0.15
            && r.level.number == w.level.number && r.player.score == w.player.score
            && r.enemySpawnTimer == 0.0 && r.powerupSpawnTimer == 2.0
  {
    var d := ClampDensity(density);
    var w1 := BulletsSeeded(BenchmarkSettings(w), Target(MaxBullets, d), rand);
    var w2 := EnemyBulletsSeeded(w1, Target(MaxEnemyBullets, d), rand);
    EnemiesSeededOk(w2, Target(MaxEnemies, d), rand);
    var w3 := EnemiesSeeded(w2, Target(MaxEnemies, d), rand);
    PowerupsSeededOk(w3, Target(MaxPowerups, d), rand);
  }

  /** Every pool holds exactly its target of active objects, and the
      enemy pool holds the bosses (up to ten) in its first slots. */
  lemma PrepareBenchmarkScene(w: World, density: int, rand: Oracle)
    requires WorldOk(w)
    ensures var r := PrepareBenchmark(w, density, rand);
            var d := ClampDensity(density);
            && CountTrue(BulletFlags(r.bullets)) == Target(MaxBullets, d)
            && CountTrue(BulletFlags(r.enemyBullets)) == Target(MaxEnemyBullets, d)
            && CountTrue(EnemyFlags(r.enemies)) == Target(MaxEnemies, d)
            && CountTrue(PowerupFlags(r.powerups)) == Target(MaxPowerups, d)
            && CountTrue(ExplosionFlags(r.explosions)) == Target(MaxExplosions, d)
            && (forall j :: 0 <= j < |r.enemies| ==>
                  (r.enemies[j].active && r.enemies[j].kind == Boss <==> j < BossTarget(Target(MaxEnemies, d))))
  {
    var d := ClampDensity(density);
    var w0 := BenchmarkSettings(w);
    var w1 := BulletsSeeded(w0, Target(MaxBullets, d), rand);
    SeedShotsCount(w0.bullets, Players, Target(MaxBullets, d), rand, w0.draws);
    var w2 := EnemyBulletsSeeded(w1, Target(MaxEnemyBullets, d), rand);
    SeedShotsCount(w1.enemyBullets, Enemies, Target(MaxEnemyBullets, d), rand, w1.draws);
    var w3 := EnemiesSeeded(w2, Target(MaxEnemies, d), rand);
    SeedEnemiesCount(w2.enemies, Target(MaxEnemies, d), w2.level.number, w2.benchmarkSpawnBand, rand, w2.draws);
    SeedEnemiesShape(w2.enemies, Target(MaxEnemies, d), w2.level.number, w2.benchmarkSpawnBand, rand, w2.draws, |w2.enemies|);
    var w4 := PowerupsSeeded(w3, Target(MaxPowerups, d), rand);
    SeedPowerupsCount(w3.powerups, Target(MaxPowerups, d), rand, w3.draws);
    SeedExplosionsCount(w4.explosions, Target(MaxExplosions, d), rand, w4.draws);
  }
}
