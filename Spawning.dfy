/** The allocating operations of src/game.c as functions on the world:
    fireBullet, spawnEnemy, spawnBoss, spawnPowerup and createExplosion.
    Each scans its pool for the lowest inactive slot and silently drops the
    request when there is none; what a slot receives follows the C code,
    fields the C code does not write keep the slot's old values. */
module Spawning {
  import opened GameTypes
  import opened Pools
  import opened World

  /** The y a new bullet is clamped to (src/game.c:434-440, 220-226). */
  function ShotY(y: real): (r: real)
    ensures ShotMinY <= r <= ShotMaxY
    ensures ShotMinY <= y <= ShotMaxY ==> r == y
  {
    Clamp(y, ShotMinY, ShotMaxY)
  }

  /** A fresh player bullet at (x, y): in flight to the right at
      BULLET_SPEED, at a height clamped into the shot band. */
  function PlayerShot(x: real, y: real): (r: Bullet)
    ensures r.active && r.x == x && r.speed == BulletSpeed
    ensures ShotMinY <= r.y <= ShotMaxY && (ShotMinY <= y <= ShotMaxY ==> r.y == y)
  {
    Bullet(x, ShotY(y), BulletWidth, BulletHeight, BulletSpeed, true)
  }

  /** The bullets after a shot from (x, y): the lowest free slot gets a
      bullet and, with the double-bullet power, the next free slot after it
      gets a second one 10 units higher (src/game.c:432-472). */
  function PlaceShots(s: seq<Bullet>, x: real, y: real, double: bool): (r: seq<Bullet>)
    ensures |r| == |s|
    ensures forall k :: 0 <= k < |s| && s[k].active ==> r[k] == s[k]
  {
    var i := FirstFreeFrom(BulletFlags(s), 0);
    if i == |s| then s
    else
      var s1 := s[i := PlayerShot(x, y)];
      var j := if double then FirstFreeFrom(BulletFlags(s1), i + 1) else |s1|;
      if j < |s1| then s1[j := PlayerShot(x, y - 10.0)] else s1
  }

  /** fireBullet (src/game.c:425-473). */
  function Fire(w: World): (r: World)
    ensures r == w.(player := r.player, bullets := r.bullets)
    ensures |r.bullets| == |w.bullets|
  {
    var p := w.player;
    if p.bulletCooldown > 0.0 then w
    else
      w.(player := p.(bulletCooldown := if p.isRapidFire then RapidFireCooldown else BulletCooldown),
         bullets := PlaceShots(w.bullets, p.x + p.width / 2.0, p.y, p.isDoubleBullet))
  }

  /** The enemy a spawnEnemy call writes into slot `e` (src/game.c:477-542),
      with the number of rand() calls it makes starting at call k. */
  function NewEnemy(e: Enemy, t: EnemyType, number: int, rand: Oracle, k: nat): (r: (Enemy, nat))
    ensures r.0.active && r.0.kind == t && EnemyShaped(r.0)
    ensures number >= 1 ==> r.0.health >= 1 && r.0.score >= 1
    ensures r.1 == k + (if t == Large then 3 else 2)
  {
    var h := EnemyHeight(t);
    var minY := h / 2.0;
    var maxY := ScreenHeight - h;
    var y := (rand(k) % Trunc(maxY - minY)) as real + minY;
    var e1 := e.(x := ScreenWidth + 20.0, y := y, active := true, kind := t,
                 movementPattern := (rand(k + 1) % 628) as real / 100.0);
    var n := number as real;
    match t
    case Small =>
      (e1.(width := 16.0, height := 12.0, speed := 80.0 + n * 5.0, health := 1, score := 30), k + 2)
    case Medium =>
      (e1.(width := 24.0, height := 16.0, speed := 60.0 + n * 3.0, health := 2, score := 50), k + 2)
    case Large =>
      (e1.(width := 32.0, height := 24.0, speed := 40.0 + n * 2.0, health := 3, score := 150,
           bulletCooldown := (rand(k + 2) % 3) as real + 1.0), k + 3)
    case Boss =>
      (e1.(width := 64.0, height := 48.0, speed := 20.0, health := 10 + number * 5,
           score := 200 * number, movementPattern := 0.0), k + 2)
  }

  /** spawnEnemy (src/game.c:475-545). */
  function SpawnEnemy(w: World, t: EnemyType, rand: Oracle): (r: World)
    ensures r == w.(enemies := r.enemies, draws := r.draws)
    ensures |r.enemies| == |w.enemies| && r.draws >= w.draws
  {
    var i := FirstFreeFrom(EnemyFlags(w.enemies), 0);
    if i == |w.enemies| then w
    else
      var (e, k) := NewEnemy(w.enemies[i], t, w.level.number, rand, w.draws);
      w.(enemies := w.enemies[i := e], draws := k)
  }

  /** The boss spawnBoss writes (src/game.c:549-569). */
  function NewBoss(number: int): (e: Enemy)
    ensures e.active && e.kind == Boss && EnemyShaped(e)
    ensures e.health == 10 + number * 5 && e.score == 100 * number
  {
    var bossWidth := 64.0;
    var bossX := if ScreenWidth - bossWidth < 240.0 then 240.0 else ScreenWidth - bossWidth;
    Enemy(bossX, 160.0, bossWidth, 48.0, 20.0, 10 + number * 5, Boss, true, 1.0, 0.0, 100 * number)
  }

  /** spawnBoss (src/game.c:547-572). */
  function SpawnBoss(w: World): (r: World)
    ensures r == w.(enemies := r.enemies)
    ensures |r.enemies| == |w.enemies|
  {
    var i := FirstFreeFrom(EnemyFlags(w.enemies), 0);
    if i == |w.enemies| then w
    else w.(enemies := w.enemies[i := NewBoss(w.level.number)])
  }

  /** Shooting and both spawns keep the world's invariant. */
  lemma FireKeepsWorldOk(w: World)
    requires WorldOk(w)
    ensures WorldOk(Fire(w))
  {
  }

  lemma SpawnEnemyKeepsWorldOk(w: World, t: EnemyType, rand: Oracle)
    requires WorldOk(w)
    ensures WorldOk(SpawnEnemy(w, t, rand))
  {
  }

  lemma SpawnBossKeepsWorldOk(w: World)
    requires WorldOk(w)
    ensures WorldOk(SpawnBoss(w))
  {
  }

  /** spawnPowerup (src/game.c:574-599) on the powerup pool, for a player
      with `lives` lives, the next rand() call being call `k`. Two rand()
      calls when the player has fewer than 3 lives, one otherwise, none when
      the pool is full. */
  function SpawnPowerup(s: seq<Powerup>, lives: int, x: real, y: real, rand: Oracle, k: nat): (r: (seq<Powerup>, nat))
    ensures |r.0| == |s| && r.1 >= k
    ensures forall j :: 0 <= j < |s| && s[j].active ==> r.0[j] == s[j]
    ensures forall j :: 0 <= j < |s| && PowerupShaped(s[j]) ==> PowerupShaped(r.0[j])
  {
    var i := FirstFreeFrom(PowerupFlags(s), 0);
    if i == |s| then (s, k)
    else
      var y1 := Clamp(y, 8.0, ScreenHeight - PowerupHeight);
      var t := rand(k) % 3;
      var kind := if lives < 3 && rand(k + 1) % 100 < 40 then Health else PowerupFromOrdinal(t);
      (s[i := Powerup(x, y1, PowerupWidth, PowerupHeight, kind, true, 60.0)], if lives < 3 then k + 2 else k + 1)
  }

  /** createExplosion (src/game.c:601-626) on the explosion pool. */
  function CreateExplosion(s: seq<Explosion>, x: real, y: real, size: real): (r: seq<Explosion>)
    ensures |r| == |s|
  {
    var i := FirstFreeFrom(ExplosionFlags(s), 0);
    if i == |s| then s
    else
      var x1 := Clamp(x, size / 2.0, ScreenWidth - size / 2.0);
      var y1 := Clamp(y, size / 2.0, ScreenHeight - size);
      s[i := Explosion(x1, y1, size, size, 0.5, 0.5, true)]
  }

  // ----- Allocation lemmas -----

  lemma EnemySlotFilled(s: seq<Enemy>, i: nat, e: Enemy)
    requires i == FirstFreeFrom(EnemyFlags(s), 0) < |s| && e.active
    ensures FilledLowestFree(EnemyFlags(s), EnemyFlags(s[i := e]))
  {
    assert EnemyFlags(s[i := e]) == EnemyFlags(s)[i := true];
  }

  /** spawnEnemy only activates the lowest free enemy slot, with the
      requested type, and leaves a full pool untouched. */
  lemma SpawnEnemyFillsLowestFree(w: World, t: EnemyType, rand: Oracle)
    requires WorldOk(w)
    ensures var r := SpawnEnemy(w, t, rand);
            var i := FirstFreeFrom(EnemyFlags(w.enemies), 0);
            && r == w.(enemies := r.enemies, draws := r.draws)
            && |r.enemies| == |w.enemies|
            && FilledLowestFree(EnemyFlags(w.enemies), EnemyFlags(r.enemies))
            && (forall j :: 0 <= j < |w.enemies| && j != i ==> r.enemies[j] == w.enemies[j])
            && (i < |w.enemies| ==> r.enemies[i].kind == t && r.enemies[i].health >= 1)
            && CountTrue(EnemyFlags(r.enemies)) <= MaxEnemies
  {
    var r := SpawnEnemy(w, t, rand);
    var i := FirstFreeFrom(EnemyFlags(w.enemies), 0);
    if i < |w.enemies| {
      EnemySlotFilled(w.enemies, i, r.enemies[i]);
    }
    FilledLowestFreeCount(EnemyFlags(w.enemies), EnemyFlags(r.enemies));
  }

  /** spawnBoss only activates the lowest free enemy slot, with a boss whose
      score is 100 per level; spawnEnemy(ENEMY_BOSS) would score 200 per
      level instead. */
  lemma SpawnBossFillsLowestFree(w: World, rand: Oracle)
    requires WorldOk(w)
    ensures var r := SpawnBoss(w);
            var i := FirstFreeFrom(EnemyFlags(w.enemies), 0);
            && r == w.(enemies := r.enemies)
            && |r.enemies| == |w.enemies|
            && FilledLowestFree(EnemyFlags(w.enemies), EnemyFlags(r.enemies))
            && (forall j :: 0 <= j < |w.enemies| && j != i ==> r.enemies[j] == w.enemies[j])
            && (i < |w.enemies| ==>
                  && r.enemies[i].kind == Boss
                  && r.enemies[i].score == 100 * w.level.number
                  && SpawnEnemy(w, Boss, rand).enemies[i].score == 200 * w.level.number)
            && CountTrue(EnemyFlags(r.enemies)) <= MaxEnemies
  {
    var r := SpawnBoss(w);
    var i := FirstFreeFrom(EnemyFlags(w.enemies), 0);
    if i < |w.enemies| {
      EnemySlotFilled(w.enemies, i, r.enemies[i]);
    }
    FilledLowestFreeCount(EnemyFlags(w.enemies), EnemyFlags(r.enemies));
  }

  /** spawnPowerup only activates the lowest free powerup slot, placing
      it at x with y clamped into [8, 304], and leaves a full pool untouched.
      A player with three lives or more gets the type drawn first; a player
      with fewer gets health on a second draw below 40 and the type drawn
      first otherwise. The pick takes two rand() calls when the player has
      fewer than three lives, one otherwise, and none when the pool is
      full. */
  lemma SpawnPowerupFillsLowestFree(s: seq<Powerup>, lives: int, x: real, y: real, rand: Oracle, k: nat)
    ensures var r := SpawnPowerup(s, lives, x, y, rand, k).0;
            var i := FirstFreeFrom(PowerupFlags(s), 0);
            && FilledLowestFree(PowerupFlags(s), PowerupFlags(r))
            && (forall j :: 0 <= j < |s| && j != i ==> r[j] == s[j])
            && (i < |s| ==> 8.0 <= r[i].y <= 304.0 && r[i].x == x && r[i].speed == 60.0)
            && (i < |s| && lives >= 3 ==> r[i].kind == PowerupFromOrdinal(rand(k) % 3))
            && (i < |s| && lives < 3 && rand(k + 1) % 100 < 40 ==> r[i].kind == Health)
            && (i < |s| && lives < 3 && rand(k + 1) % 100 >= 40 ==> r[i].kind == PowerupFromOrdinal(rand(k) % 3))
            && SpawnPowerup(s, lives, x, y, rand, k).1 == k + (if i == |s| then 0 else if lives < 3 then 2 else 1)
            && CountTrue(PowerupFlags(r)) <= |s|
  {
    var r := SpawnPowerup(s, lives, x, y, rand, k).0;
    var i := FirstFreeFrom(PowerupFlags(s), 0);
    if i < |s| {
      assert PowerupFlags(r) == PowerupFlags(s)[i := true];
    }
    FilledLowestFreeCount(PowerupFlags(s), PowerupFlags(r));
  }

  /** createExplosion only activates the lowest free explosion slot, with a
      full half-second countdown, at a position clamped onto the screen, and
      leaves a full pool untouched. */
  lemma CreateExplosionFillsLowestFree(s: seq<Explosion>, x: real, y: real, size: real)
    ensures var r := CreateExplosion(s, x, y, size);
            var i := FirstFreeFrom(ExplosionFlags(s), 0);
            && FilledLowestFree(ExplosionFlags(s), ExplosionFlags(r))
            && (forall j :: 0 <= j < |s| && j != i ==> r[j] == s[j])
            && (i < |s| ==> r[i].currentLife == r[i].lifespan == 0.5 && r[i].width == r[i].height == size)
            && (i < |s| && 0.0 <= size <= ScreenHeight / 1.5 ==>
                  size / 2.0 <= r[i].x <= ScreenWidth - size / 2.0 && size / 2.0 <= r[i].y <= ScreenHeight - size)
            && CountTrue(ExplosionFlags(r)) <= |s|
  {
    var r := CreateExplosion(s, x, y, size);
    var i := FirstFreeFrom(ExplosionFlags(s), 0);
    if i < |s| {
      assert ExplosionFlags(r) == ExplosionFlags(s)[i := true];
    }
    FilledLowestFreeCount(ExplosionFlags(s), ExplosionFlags(r));
  }

  /** The shot placement fills the lowest free slot and, for a double shot,
      the next free slot after it; no other slot changes and the active count
      grows by the number of slots filled. */
  lemma {:induction false} PlaceShotsFillsLowestFree(s: seq<Bullet>, x: real, y: real, double: bool)
    ensures var r := PlaceShots(s, x, y, double);
            var f := BulletFlags(s);
            var i := FirstFreeFrom(f, 0);
            var j := if i < |f| && double then FirstFreeFrom(f, i + 1) else |f|;
            && (forall k :: 0 <= k < |f| && k != i && k != j ==> r[k] == s[k])
            && (i < |f| ==> r[i] == PlayerShot(x, y))
            && (j < |f| ==> i < j && r[j] == PlayerShot(x, y - 10.0))
            && CountTrue(BulletFlags(r)) ==
               CountTrue(f) + (if i < |f| then 1 else 0) + (if j < |f| then 1 else 0)
  {
    var f := BulletFlags(s);
    var i := FirstFreeFrom(f, 0);
    if i < |f| {
      var s1 := s[i := PlayerShot(x, y)];
      var f1 := BulletFlags(s1);
      assert f1 == f[i := true];
      CountTrueUpdate(f, i, true);
      if double {
        var j := FirstFreeFrom(f, i + 1);
        FirstFreeUnique(f1, i + 1, j);
        if j < |f| {
          var s2 := s1[j := PlayerShot(x, y - 10.0)];
          assert BulletFlags(s2) == f1[j := true];
          CountTrueUpdate(f1, j, true);
        }
      }
    }
  }

  /** fireBullet does nothing while the cooldown runs; otherwise it resets
      the cooldown to the rapid-fire or normal delay (even when the pool is
      full) and places the shot at the player's nose without touching any
      other part of the world. */
  lemma FireEffect(w: World)
    ensures w.player.bulletCooldown > 0.0 ==> Fire(w) == w
    ensures w.player.bulletCooldown <= 0.0 ==>
            var r := Fire(w);
            && r == w.(player := w.player.(bulletCooldown :=
                         if w.player.isRapidFire then RapidFireCooldown else BulletCooldown),
                       bullets := r.bullets)
            && r.bullets == PlaceShots(w.bullets, w.player.x + w.player.width / 2.0,
                                       w.player.y, w.player.isDoubleBullet)
            && r.player.bulletCooldown > 0.0
  {
  }
}
