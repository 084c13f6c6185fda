/** handleCollisions of src/game.c (lines 628-770). Four passes, in order:
    player bullets against enemies, enemy bullets against the player,
    enemies against the player, powerups against the player. The player's
    box is taken once, before the first pass, and every pass against the
    player uses that box. */
module Collisions {
  import opened GameTypes
  import opened Pools
  import opened World
  import opened Spawning

  /** The outcome of a bullet's scan of the enemy list. */
  datatype Scan = Miss | Found(pos: nat)

  /** An axis-aligned box by its edges; y grows downward. */
  datatype Box = Box(x: real, y: real, right: real, bottom: real)

  function PlayerBox(p: Player): (b: Box)
    ensures b.x == p.x && b.y == p.y
    ensures b.right - b.x == p.width && b.bottom - b.y == p.height
  {
    Box(p.x, p.y, p.x + p.width, p.y + p.height)
  }

  /** The test the three passes against the player use: the boxes share
      interior (src/game.c:699-702, 719-722, 745-748). */
  predicate Overlaps(x: real, y: real, width: real, height: real, b: Box)
  {
    x < b.right && x + width > b.x && y < b.bottom && y + height > b.y
  }

  /** The bullet-enemy test (src/game.c:665-668): not separated, so boxes
      that only share an edge already count as a hit. */
  predicate Touches(b: Bullet, e: Enemy)
  {
    !(b.x + b.width < e.x || b.x > e.x + e.width || b.y + b.height < e.y || b.y > e.y + e.height)
  }

  /** Both tests are symmetric in their boxes, and the player's test is the
      stricter one: shared interior implies touching, and two boxes that only
      meet along an edge touch without overlapping. */
  lemma OverlapImpliesTouch(b: Bullet, e: Enemy)
    requires b.width >= 0.0 && b.height >= 0.0 && e.width >= 0.0 && e.height >= 0.0
    ensures Overlaps(b.x, b.y, b.width, b.height, Box(e.x, e.y, e.x + e.width, e.y + e.height)) ==> Touches(b, e)
    ensures Overlaps(b.x, b.y, b.width, b.height, Box(e.x, e.y, e.x + e.width, e.y + e.height)) <==>
            Overlaps(e.x, e.y, e.width, e.height, Box(b.x, b.y, b.x + b.width, b.y + b.height))
    ensures b.x + b.width == e.x && b.y == e.y && b.height > 0.0 && e.height > 0.0 ==>
            Touches(b, e) && !Overlaps(b.x, b.y, b.width, b.height, Box(e.x, e.y, e.x + e.width, e.y + e.height))
  {
  }

  // ----- Pass 1: player bullets against enemies -----

  /** The indices of the active enemies in increasing order: the
      `activeEnemies` list built before the first pass (src/game.c:637-644). */
  function ActiveIndices(s: seq<Enemy>): (r: seq<nat>)
    ensures forall p :: 0 <= p < |r| ==> r[p] < |s| && s[r[p]].active
    ensures forall p, q :: 0 <= p < q < |r| ==> r[p] < r[q]
    ensures forall j :: 0 <= j < |s| && s[j].active ==> j in r
    ensures |r| == CountTrue(EnemyFlags(s))
  {
    if s == [] then []
    else
      var t := s[..|s| - 1];
      var r0 := ActiveIndices(t);
      assert EnemyFlags(s) == EnemyFlags(t) + [s[|s| - 1].active];
      CountTrueAppend(EnemyFlags(t), s[|s| - 1].active);
      r0 + (if s[|s| - 1].active then [|s| - 1] else [])
  }

  lemma {:induction false} CountTrueAppend(f: seq<bool>, v: bool)
    ensures CountTrue(f + [v]) == CountTrue(f) + (if v then 1 else 0)
  {
    if f != [] {
      assert (f + [v])[1..] == f[1..] + [v];
      CountTrueAppend(f[1..], v);
    }
  }

  /** Whether list entry `j` is a target for bullet `b`. The source scans the
      list without looking at `active` again (recheck false); the corrected
      scan skips enemies that have died since the list was built. */
  predicate Target(s: seq<Enemy>, j: nat, b: Bullet, recheck: bool)
    requires j < |s|
  {
    (!recheck || s[j].active) && Touches(b, s[j])
  }

  /** The position in the list of the first target, if any (src/game.c:656-693). */
  function FirstHit(s: seq<Enemy>, b: Bullet, list: seq<nat>, recheck: bool, from: nat): (r: Scan)
    requires from <= |list|
    requires forall p :: 0 <= p < |list| ==> list[p] < |s|
    ensures r.Found? ==> from <= r.pos < |list| && Target(s, list[r.pos], b, recheck)
    ensures r.Found? ==> forall q :: from <= q < r.pos ==> !Target(s, list[q], b, recheck)
    ensures r.Miss? ==> forall q :: from <= q < |list| ==> !Target(s, list[q], b, recheck)
    decreases |list| - from
  {
    if from == |list| then Miss
    else if Target(s, list[from], b, recheck) then Found(from)
    else FirstHit(s, b, list, recheck, from + 1)
  }

  /** What the first pass reads and writes: the two pools it scans, the
      score, the level's boss flag, the pools a kill adds to, and the number
      of rand() calls so far. */
  datatype Fight = Fight(
    bullets: seq<Bullet>, enemies: seq<Enemy>, score: int, bossDefeated: bool,
    explosions: seq<Explosion>, powerups: seq<Powerup>, draws: nat)

  /** The pools of a fight keep their sizes, and its counters only grow. */
  predicate Grows(f: Fight, g: Fight)
  {
    && |g.bullets| == |f.bullets| && |g.enemies| == |f.enemies|
    && |g.explosions| == |f.explosions| && |g.powerups| == |f.powerups|
    && g.draws >= f.draws && (f.bossDefeated ==> g.bossDefeated)
  }

  /** The death of enemy `j` (src/game.c:676-690): it pays its score,
      explodes at one and a half times its width and is removed, and drops a
      powerup: always for the boss, which also marks the level's boss as
      defeated, and on a draw below 10 out of 100 otherwise. */
  function Kill(f: Fight, lives: int, j: nat, rand: Oracle): (r: Fight)
    requires j < |f.enemies|
    ensures Grows(f, r) && r.bullets == f.bullets
    ensures r.enemies == f.enemies[j := f.enemies[j].(active := false)]
    ensures r.score == f.score + f.enemies[j].score
    ensures r.bossDefeated == (f.bossDefeated || f.enemies[j].kind == Boss)
    ensures forall k :: 0 <= k < |f.powerups| && f.powerups[k].active ==> r.powerups[k] == f.powerups[k]
    ensures forall k :: 0 <= k < |f.powerups| && PowerupShaped(f.powerups[k]) ==> PowerupShaped(r.powerups[k])
  {
    var e := f.enemies[j];
    var drop := Drop(f.powerups, lives, e, rand, f.draws);
    Fight(f.bullets, f.enemies[j := e.(active := false)], f.score + e.score, f.bossDefeated || e.kind == Boss,
          CreateExplosion(f.explosions, e.x, e.y, e.width * 1.5), drop.0, drop.1)
  }

  /** The powerup a dying enemy leaves: always for the boss, otherwise on
      a draw below 10 out of 100. */
  function Drop(ps: seq<Powerup>, lives: int, e: Enemy, rand: Oracle, k: nat): (r: (seq<Powerup>, nat))
    ensures |r.0| == |ps| && r.1 >= k && (e.kind != Boss ==> r.1 > k)
    ensures forall j :: 0 <= j < |ps| && ps[j].active ==> r.0[j] == ps[j]
    ensures e.kind != Boss && rand(k) % 100 >= 10 ==> r == (ps, k + 1)
  {
    if e.kind == Boss then SpawnPowerup(ps, lives, e.x, e.y, rand, k)
    else if rand(k) % 100 < 10 then SpawnPowerup(ps, lives, e.x, e.y, rand, k + 1)
    else (ps, k + 1)
  }

  /** A kill is its explosion followed by its drop. */
  lemma KillSteps(f: Fight, lives: int, j: nat, rand: Oracle, ex: seq<Explosion>, d: (seq<Powerup>, nat))
    requires j < |f.enemies|
    requires ex == CreateExplosion(f.explosions, f.enemies[j].x, f.enemies[j].y, f.enemies[j].width * 1.5)
    requires d == Drop(f.powerups, lives, f.enemies[j], rand, f.draws)
    ensures Kill(f, lives, j, rand) ==
            Fight(f.bullets, f.enemies[j := f.enemies[j].(active := false)], f.score + f.enemies[j].score,
                  f.bossDefeated || f.enemies[j].kind == Boss, ex, d.0, d.1)
  {
  }

  /** Bullet `i` hitting enemy `j` (src/game.c:671-692): the enemy loses one
      health and the bullet is spent; at zero health the enemy dies. */
  function ResolveHit(f: Fight, lives: int, i: nat, j: nat, rand: Oracle): (r: Fight)
    requires i < |f.bullets| && j < |f.enemies|
    ensures Grows(f, r)
    ensures r.bullets == f.bullets[i := f.bullets[i].(active := false)]
    ensures var dies := f.enemies[j].health - 1 <= 0;
            && r.enemies == f.enemies[j := f.enemies[j].(health := f.enemies[j].health - 1,
                                                           active := f.enemies[j].active && !dies)]
            && r.score == f.score + (if dies then f.enemies[j].score else 0)
            && r.bossDefeated == (f.bossDefeated || (dies && f.enemies[j].kind == Boss))
    ensures forall k :: 0 <= k < |f.powerups| && f.powerups[k].active ==> r.powerups[k] == f.powerups[k]
    ensures forall k :: 0 <= k < |f.powerups| && PowerupShaped(f.powerups[k]) ==> PowerupShaped(r.powerups[k])
  {
    var e := f.enemies[j];
    var f1 := f.(bullets := f.bullets[i := f.bullets[i].(active := false)],
                 enemies := f.enemies[j := e.(health := e.health - 1)]);
    if e.health - 1 <= 0 then Kill(f1, lives, j, rand) else f1
  }

  /** Bullet `i`'s turn in the first pass. */
  function ShootAt(f: Fight, lives: int, i: nat, list: seq<nat>, recheck: bool, rand: Oracle): (r: Fight)
    requires i < |f.bullets|
    requires forall p :: 0 <= p < |list| ==> list[p] < |f.enemies|
    ensures Grows(f, r)
    ensures forall k :: 0 <= k < |f.bullets| ==>
            r.bullets[k] == f.bullets[k].(active := r.bullets[k].active) && (r.bullets[k].active ==> f.bullets[k].active)
    ensures forall k :: 0 <= k < |f.bullets| && k != i ==> r.bullets[k] == f.bullets[k]
    ensures forall k :: 0 <= k < |f.enemies| ==>
            && r.enemies[k] == f.enemies[k].(health := r.enemies[k].health, active := r.enemies[k].active)
            && (r.enemies[k].active ==> f.enemies[k].active)
            && (f.enemies[k].active && f.enemies[k].kind == Boss && !r.enemies[k].active ==> r.bossDefeated)
            && r.enemies[k].health <= f.enemies[k].health
            && (f.enemies[k].active && !r.enemies[k].active ==>
                  r.enemies[k].health <= 0 && r.enemies[k].health < f.enemies[k].health)
    ensures forall k :: 0 <= k < |f.powerups| && PowerupShaped(f.powerups[k]) ==> PowerupShaped(r.powerups[k])
  {
    if !f.bullets[i].active then f
    else
      match FirstHit(f.enemies, f.bullets[i], list, recheck, 0)
      case Miss => f
      case Found(p) => ResolveHit(f, lives, i, list[p], rand)
  }

  /** The first pass over bullets 0 .. n-1, scanning `list`. */
  function ShootEnemiesN(f: Fight, lives: int, list: seq<nat>, recheck: bool, rand: Oracle, n: nat): (r: Fight)
    requires n <= |f.bullets|
    requires forall p :: 0 <= p < |list| ==> list[p] < |f.enemies|
    ensures Grows(f, r)
    ensures forall k :: 0 <= k < |f.bullets| ==>
            r.bullets[k] == f.bullets[k].(active := r.bullets[k].active) && (r.bullets[k].active ==> f.bullets[k].active)
    ensures forall k :: n <= k < |f.bullets| ==> r.bullets[k] == f.bullets[k]
    ensures forall k :: 0 <= k < |f.enemies| ==>
            && r.enemies[k] == f.enemies[k].(health := r.enemies[k].health, active := r.enemies[k].active)
            && (r.enemies[k].active ==> f.enemies[k].active)
            && (f.enemies[k].active && f.enemies[k].kind == Boss && !r.enemies[k].active ==> r.bossDefeated)
            && r.enemies[k].health <= f.enemies[k].health
            && (f.enemies[k].active && !r.enemies[k].active ==>
                  r.enemies[k].health <= 0 && r.enemies[k].health < f.enemies[k].health)
    ensures forall k :: 0 <= k < |f.powerups| && PowerupShaped(f.powerups[k]) ==> PowerupShaped(r.powerups[k])
  {
    if n == 0 then f
    else ShootAt(ShootEnemiesN(f, lives, list, recheck, rand, n - 1), lives, n - 1, list, recheck, rand)
  }

  /** The sum of the scores of the enemies active in `before` and not in
      `after`: what their deaths are worth. */
  function KillScore(before: seq<Enemy>, after: seq<Enemy>): int
    requires |before| == |after|
  {
    if before == [] then 0
    else (if before[0].active && !after[0].active then before[0].score else 0) + KillScore(before[1..], after[1..])
  }

  /** Nothing died, nothing is owed. */
  lemma {:induction false} KillScoreNone(s: seq<Enemy>)
    ensures KillScore(s, s) == 0
  {
    if s != [] {
      KillScoreNone(s[1..]);
    }
  }

  /** Deaths never cost points when no enemy has a negative score. */
  lemma {:induction false} KillScoreNonNegative(before: seq<Enemy>, after: seq<Enemy>)
    requires |before| == |after|
    requires forall k :: 0 <= k < |before| ==> before[k].score >= 0
    ensures KillScore(before, after) >= 0
  {
    if before != [] {
      KillScoreNonNegative(before[1..], after[1..]);
    }
  }

  lemma {:induction false} KillScoreUpdate(before: seq<Enemy>, after: seq<Enemy>, j: nat, e: Enemy)
    requires |before| == |after| && j < |after|
    ensures KillScore(before, after[j := e]) ==
            KillScore(before, after)
            - (if before[j].active && !after[j].active then before[j].score else 0)
            + (if before[j].active && !e.active then before[j].score else 0)
  {
    if j == 0 {
      assert after[j := e][1..] == after[1..];
    } else {
      KillScoreUpdate(before[1..], after[1..], j - 1, e);
      assert after[j := e][1..] == after[1..][j - 1 := e];
    }
  }

  /** With the list re-checked, the first `n` bullets pay for each kill
      exactly once. */
  lemma {:induction false} ShootEnemiesNScore(f: Fight, lives: int, list: seq<nat>, rand: Oracle, n: nat)
    requires n <= |f.bullets|
    requires forall p :: 0 <= p < |list| ==> list[p] < |f.enemies|
    ensures var r := ShootEnemiesN(f, lives, list, true, rand, n);
            r.score == f.score + KillScore(f.enemies, r.enemies)
  {
    if n == 0 {
      KillScoreNone(f.enemies);
    } else {
      ShootEnemiesNScore(f, lives, list, rand, n - 1);
      var v := ShootEnemiesN(f, lives, list, true, rand, n - 1);
      if v.bullets[n - 1].active {
        match FirstHit(v.enemies, v.bullets[n - 1], list, true, 0)
        case Miss =>
        case Found(p) =>
          assert ShootEnemiesN(f, lives, list, true, rand, n) == ResolveHit(v, lives, n - 1, list[p], rand);
          ResolveHitScore(f.enemies, v, lives, n - 1, list[p], rand);
      }
    }
  }

  /** A hit on a live enemy changes the score by what its death, if any,
      adds to the kill score. */
  lemma ResolveHitScore(before: seq<Enemy>, f: Fight, lives: int, i: nat, j: nat, rand: Oracle)
    requires i < |f.bullets| && j < |f.enemies| == |before|
    requires f.enemies[j].active && before[j].active && f.enemies[j].score == before[j].score
    ensures var r := ResolveHit(f, lives, i, j, rand);
            r.score - f.score == KillScore(before, r.enemies) - KillScore(before, f.enemies)
  {
    var e := f.enemies[j];
    KillScoreUpdate(before, f.enemies, j, e.(health := e.health - 1, active := e.active && !(e.health - 1 <= 0)));
  }

  /** The fight a world starts the first pass with. */
  function FightOf(w: World): (f: Fight)
    ensures f.score == w.player.score && f.bossDefeated == w.level.bossDefeated && f.draws == w.draws
  {
    Fight(w.bullets, w.enemies, w.player.score, w.level.bossDefeated, w.explosions, w.powerups, w.draws)
  }

  /** The first pass as corrected: a bullet hits the first enemy of the
      list that is still active. */
  function ShootEnemies(f: Fight, lives: int, rand: Oracle): (r: Fight)
    ensures Grows(f, r)
  {
    ShootEnemiesN(f, lives, ActiveIndices(f.enemies), true, rand, |f.bullets|)
  }

  /** The first pass as written: the list is not re-checked, so an enemy
      killed by an earlier bullet of the same frame still absorbs bullets. */
  function ShootEnemiesAsWritten(f: Fight, lives: int, rand: Oracle): (r: Fight)
    ensures Grows(f, r)
  {
    ShootEnemiesN(f, lives, ActiveIndices(f.enemies), false, rand, |f.bullets|)
  }

  /** With the corrected scan, each enemy killed this frame is paid for
      exactly once, only enemies alive at the start can die, no bullet comes
      back, and killing the boss marks the level's boss as defeated. */
  lemma ShootEnemiesScoresEachKillOnce(f: Fight, lives: int, rand: Oracle)
    ensures var r := ShootEnemies(f, lives, rand);
            && r.score == f.score + KillScore(f.enemies, r.enemies)
            && (forall k :: 0 <= k < |f.enemies| ==> r.enemies[k].active ==> f.enemies[k].active)
            && (forall k :: 0 <= k < |f.bullets| ==> r.bullets[k].active ==> f.bullets[k].active)
            && (forall k :: 0 <= k < |f.enemies| ==>
                  f.enemies[k].active && f.enemies[k].kind == Boss && !r.enemies[k].active ==> r.bossDefeated)
  {
    ShootEnemiesNScore(f, lives, ActiveIndices(f.enemies), rand, |f.bullets|);
  }

  // ----- The first pass as written -----

  /** How many of the hits that took an enemy from health `h0` down to `h1`
      left it at zero or below. With the list not re-checked, a dead enemy
      still absorbs bullets, and each such hit pays its score again. */
  function PaidHits(h0: int, h1: int): (n: int)
    ensures h1 <= h0 ==> n >= 0
    ensures h1 <= 0 && h1 < h0 ==> n >= 1
    ensures h1 > 0 ==> n == 0
  {
    if h1 <= 0 then (if h0 < 1 then h0 else 1) - h1 else 0
  }

  /** One more hit on an enemy at health `h` pays once more exactly when it
      leaves the enemy at zero or below. */
  lemma PaidHitsStep(h0: int, h: int)
    requires h <= h0
    ensures PaidHits(h0, h - 1) == PaidHits(h0, h) + (if h - 1 <= 0 then 1 else 0)
  {
  }

  /** What the pass as written pays for the enemies going from `before` to
      `after`: each enemy's score once per hit that left it at zero or
      below. */
  function StalePay(before: seq<Enemy>, after: seq<Enemy>): int
    requires |before| == |after|
  {
    if before == [] then 0
    else before[0].score * PaidHits(before[0].health, after[0].health) + StalePay(before[1..], after[1..])
  }

  lemma {:induction false} StalePayNone(s: seq<Enemy>)
    ensures StalePay(s, s) == 0
  {
    if s != [] {
      StalePayNone(s[1..]);
    }
  }

  lemma {:induction false} StalePayUpdate(before: seq<Enemy>, after: seq<Enemy>, j: nat, e: Enemy)
    requires |before| == |after| && j < |after|
    ensures StalePay(before, after[j := e]) ==
            StalePay(before, after)
            - before[j].score * PaidHits(before[j].health, after[j].health)
            + before[j].score * PaidHits(before[j].health, e.health)
  {
    if j == 0 {
      assert after[j := e][1..] == after[1..];
    } else {
      StalePayUpdate(before[1..], after[1..], j - 1, e);
      assert after[j := e][1..] == after[1..][j - 1 := e];
    }
  }

  /** A hit by the pass as written pays what it adds to StalePay: the
      enemy's score when it leaves the enemy at zero or below, else 0. */
  lemma StaleHitPays(before: seq<Enemy>, es: seq<Enemy>, j: nat)
    requires j < |es| == |before|
    requires es[j].health <= before[j].health && es[j].score == before[j].score
    ensures var e := es[j];
            var dies := e.health - 1 <= 0;
            StalePay(before, es[j := e.(health := e.health - 1, active := e.active && !dies)]) ==
            StalePay(before, es) + (if dies then e.score else 0)
  {
    var e := es[j];
    var dies := e.health - 1 <= 0;
    var s := before[j].score;
    var h0 := before[j].health;
    var n0 := PaidHits(h0, e.health);
    var n1 := PaidHits(h0, e.health - 1);
    PaidHitsStep(h0, e.health);
    if dies {
      assert n1 == n0 + 1;
      assert s * n1 == s * n0 + s;
    }
    StalePayUpdate(before, es, j, e.(health := e.health - 1, active := e.active && !dies));
  }

  /** The same for a hit as the fight resolves it. */
  lemma StaleResolvePays(before: seq<Enemy>, f: Fight, lives: int, i: nat, j: nat, rand: Oracle)
    requires i < |f.bullets| && j < |f.enemies| == |before|
    requires f.enemies[j].health <= before[j].health && f.enemies[j].score == before[j].score
    ensures var r := ResolveHit(f, lives, i, j, rand);
            r.score - f.score == StalePay(before, r.enemies) - StalePay(before, f.enemies)
  {
    StaleHitPays(before, f.enemies, j);
  }

  /** Without the re-check, the first `n` bullets pay each enemy's score
      once per hit that leaves it at zero health or below. */
  lemma {:induction false} ShootEnemiesNStalePay(f: Fight, lives: int, list: seq<nat>, rand: Oracle, n: nat)
    requires n <= |f.bullets|
    requires forall p :: 0 <= p < |list| ==> list[p] < |f.enemies|
    ensures var r := ShootEnemiesN(f, lives, list, false, rand, n);
            r.score == f.score + StalePay(f.enemies, r.enemies)
  {
    if n == 0 {
      StalePayNone(f.enemies);
    } else {
      ShootEnemiesNStalePay(f, lives, list, rand, n - 1);
      var v := ShootEnemiesN(f, lives, list, false, rand, n - 1);
      if v.bullets[n - 1].active {
        match FirstHit(v.enemies, v.bullets[n - 1], list, false, 0)
        case Miss =>
        case Found(p) =>
          assert ShootEnemiesN(f, lives, list, false, rand, n) == ResolveHit(v, lives, n - 1, list[p], rand);
          StaleResolvePays(f.enemies, v, lives, n - 1, list[p], rand);
      }
    }
  }

  /** What the pass as written pays covers the worth of the enemies that
      died, once each, when no score is negative. */
  lemma {:induction false} StalePayCoversKills(before: seq<Enemy>, after: seq<Enemy>)
    requires |before| == |after|
    requires forall k :: 0 <= k < |before| ==> before[k].score >= 0 && after[k].health <= before[k].health
    requires forall k :: 0 <= k < |before| && before[k].active && !after[k].active ==>
               after[k].health <= 0 && after[k].health < before[k].health
    ensures StalePay(before, after) >= KillScore(before, after)
  {
    if before != [] {
      StalePayCoversKills(before[1..], after[1..]);
      var s := before[0].score;
      var n := PaidHits(before[0].health, after[0].health);
      assert n >= 0;
      assert s * n >= 0;
      if before[0].active && !after[0].active {
        assert n >= 1;
        assert s * n == s + s * (n - 1);
      }
    }
  }

  /** The scan as written ignores health and activity: only positions
      decide, and the pass never moves an enemy. */
  lemma {:induction false} FirstHitIgnoresHealth(s: seq<Enemy>, t: seq<Enemy>, b: Bullet, list: seq<nat>, from: nat)
    requires |t| == |s| && from <= |list|
    requires forall p :: 0 <= p < |list| ==> list[p] < |s|
    requires forall k :: 0 <= k < |s| ==> t[k] == s[k].(health := t[k].health, active := t[k].active)
    ensures FirstHit(t, b, list, false, from) == FirstHit(s, b, list, false, from)
    decreases |list| - from
  {
    if from < |list| {
      assert t[list[from]] == s[list[from]].(health := t[list[from]].health, active := t[list[from]].active);
      FirstHitIgnoresHealth(s, t, b, list, from + 1);
    }
  }

  /** Without the re-check, each of the first `n` bullets that was in flight
      is spent exactly when it touches a listed enemy, dead or alive. */
  lemma {:induction false} ShootEnemiesNSpends(f: Fight, lives: int, list: seq<nat>, rand: Oracle, n: nat)
    requires n <= |f.bullets|
    requires forall p :: 0 <= p < |list| ==> list[p] < |f.enemies|
    ensures var r := ShootEnemiesN(f, lives, list, false, rand, n);
            forall k :: 0 <= k < |f.bullets| ==>
              r.bullets[k].active == (f.bullets[k].active && !(k < n && FirstHit(f.enemies, f.bullets[k], list, false, 0).Found?))
  {
    if n > 0 {
      ShootEnemiesNSpends(f, lives, list, rand, n - 1);
      var v := ShootEnemiesN(f, lives, list, false, rand, n - 1);
      assert v.bullets[n - 1] == f.bullets[n - 1];
      FirstHitIgnoresHealth(f.enemies, v.enemies, f.bullets[n - 1], list, 0);
    }
  }

  /** The scan of the list of active enemies, as written, finds an entry
      exactly when the bullet touches some enemy that is active. */
  lemma FoundIffTouchesActive(s: seq<Enemy>, b: Bullet)
    ensures FirstHit(s, b, ActiveIndices(s), false, 0).Found? <==>
            !forall j :: 0 <= j < |s| && s[j].active ==> !Touches(b, s[j])
  {
    var list := ActiveIndices(s);
    match FirstHit(s, b, list, false, 0)
    case Found(p) =>
      assert Touches(b, s[list[p]]) && s[list[p]].active;
    case Miss =>
      forall j | 0 <= j < |s| && s[j].active ensures !Touches(b, s[j]) {
        assert j in list;
        var q :| 0 <= q < |list| && list[q] == j;
        assert !Target(s, list[q], b, false);
      }
  }

  /** The pass as written spends a bullet in flight exactly when it touches
      an enemy active at the start of the pass. */
  lemma AsWrittenSpends(f: Fight, lives: int, rand: Oracle)
    ensures var r := ShootEnemiesAsWritten(f, lives, rand);
            forall k :: 0 <= k < |f.bullets| ==>
              (r.bullets[k].active <==>
                 f.bullets[k].active && forall j :: 0 <= j < |f.enemies| && f.enemies[j].active ==> !Touches(f.bullets[k], f.enemies[j]))
  {
    ShootEnemiesNSpends(f, lives, ActiveIndices(f.enemies), rand, |f.bullets|);
    forall k | 0 <= k < |f.bullets| {
      FoundIffTouchesActive(f.enemies, f.bullets[k]);
    }
  }

  /** The pass as written raises the score by StalePay, which is at least
      the worth of the enemies shot dead. */
  lemma AsWrittenScore(f: Fight, lives: int, rand: Oracle)
    requires forall k :: 0 <= k < |f.enemies| ==> f.enemies[k].score >= 0
    ensures var r := ShootEnemiesAsWritten(f, lives, rand);
            && r.score == f.score + StalePay(f.enemies, r.enemies)
            && r.score >= f.score + KillScore(f.enemies, r.enemies) >= f.score
  {
    var r := ShootEnemiesAsWritten(f, lives, rand);
    ShootEnemiesNStalePay(f, lives, ActiveIndices(f.enemies), rand, |f.bullets|);
    StalePayCoversKills(f.enemies, r.enemies);
    KillScoreNonNegative(f.enemies, r.enemies);
  }

  /** The first pass as written, on all inputs: the score rises by StalePay,
      which is at least the worth of the enemies shot dead; a bullet in
      flight is spent exactly when it touches an enemy that was active at
      the start of the pass; only enemies active at the start die, and
      killing the boss marks the level's boss as defeated. */
  lemma ShootEnemiesAsWrittenEffects(f: Fight, lives: int, rand: Oracle)
    requires forall k :: 0 <= k < |f.enemies| ==> f.enemies[k].score >= 0
    ensures var r := ShootEnemiesAsWritten(f, lives, rand);
            && r.score == f.score + StalePay(f.enemies, r.enemies)
            && r.score >= f.score + KillScore(f.enemies, r.enemies) >= f.score
            && (forall k :: 0 <= k < |f.bullets| ==>
                  (r.bullets[k].active <==>
                     f.bullets[k].active && forall j :: 0 <= j < |f.enemies| && f.enemies[j].active ==> !Touches(f.bullets[k], f.enemies[j])))
            && (forall k :: 0 <= k < |f.enemies| ==> r.enemies[k].active ==> f.enemies[k].active)
            && (forall k :: 0 <= k < |f.enemies| ==>
                  f.enemies[k].active && f.enemies[k].kind == Boss && !r.enemies[k].active ==> r.bossDefeated)
  {
    AsWrittenScore(f, lives, rand);
    AsWrittenSpends(f, lives, rand);
  }

  // A small enemy (one health, worth 30) and two bullets that both touch it.
  const SampleEnemy: Enemy := Enemy(100.0, 100.0, 16.0, 12.0, 80.0, 1, Small, true, 0.0, 0.0, 30)
  const SampleBullet: Bullet := Bullet(96.0, 102.0, 8.0, 4.0, 300.0, true)
  const SampleFight: Fight := Fight([SampleBullet, SampleBullet], [SampleEnemy], 0, false, [], [], 0)
  const SampleRand: Oracle := (k: nat) => 99

  /** The fight after the first bullet: it killed the enemy, paying 30. */
  const AfterFirstShot: Fight :=
    Fight([SampleBullet.(active := false), SampleBullet], [SampleEnemy.(health := 0, active := false)],
          30, false, [], [], 1)

  lemma FirstShotKills()
    ensures ActiveIndices(SampleFight.enemies) == [0]
    ensures ShootEnemiesN(SampleFight, 3, [0], false, SampleRand, 1) == AfterFirstShot
  {
    assert EnemyFlags(SampleFight.enemies) == [true];
    assert ShootEnemiesN(SampleFight, 3, [0], false, SampleRand, 1) == ShootAt(SampleFight, 3, 0, [0], false, SampleRand);
    assert FirstHit(SampleFight.enemies, SampleBullet, [0], false, 0) == Found(0);
    FirstKill();
  }

  /** The first bullet's hit kills the enemy. */
  lemma FirstKill()
    ensures ResolveHit(SampleFight, 3, 0, 0, SampleRand) == AfterFirstShot
  {
    assert ExplosionFlags([]) == [] && PowerupFlags([]) == [];
    var hit := SampleFight.(bullets := [SampleBullet.(active := false), SampleBullet],
                            enemies := [SampleEnemy.(health := 0)]);
    assert ResolveHit(SampleFight, 3, 0, 0, SampleRand) == Kill(hit, 3, 0, SampleRand);
  }

  lemma SecondShotPaysAgain()
    ensures var r := ShootAt(AfterFirstShot, 3, 1, [0], false, SampleRand);
            r.score == 60 && r.enemies == [SampleEnemy.(health := -1, active := false)]
  {
    assert ExplosionFlags([]) == [] && PowerupFlags([]) == [];
    assert FirstHit(AfterFirstShot.enemies, SampleBullet, [0], false, 0) == Found(0);
    var hit := AfterFirstShot.(bullets := [SampleBullet.(active := false), SampleBullet.(active := false)],
                               enemies := [SampleEnemy.(health := -1)]);
    assert ResolveHit(AfterFirstShot, 3, 1, 0, SampleRand) == Kill(hit, 3, 0, SampleRand);
  }

  /** With one small enemy worth 30 and two bullets touching it, the pass as
      written pays 60 for the one death, because the second bullet still
      finds the dead enemy in the list. */
  lemma StaleListDoubleScores()
    ensures var r := ShootEnemiesAsWritten(SampleFight, 3, SampleRand);
            && KillScore(SampleFight.enemies, r.enemies) == 30
            && r.score == SampleFight.score + 60
  {
    FirstShotKills();
    SecondShotPaysAgain();
    var r := ShootEnemiesAsWritten(SampleFight, 3, SampleRand);
    assert r == ShootAt(AfterFirstShot, 3, 1, [0], false, SampleRand);
    assert KillScore(SampleFight.enemies, r.enemies) == 30 + KillScore([], []);
  }

  // ----- Passes 2-4: against the player's box -----

  /** A hit on the player by a bullet or a ship: a life is lost, an
      explosion the player's width is made at the player's current
      position and any timed power ends (src/game.c:704-711, 724-737). */
  function PlayerHit(p: Player, ex: seq<Explosion>): (r: (Player, seq<Explosion>))
    ensures r.0 == p.(lives := p.lives - 1, isRapidFire := false, isDoubleBullet := false, powerupTimer := 0.0)
    ensures |r.1| == |ex|
  {
    (p.(lives := p.lives - 1, isRapidFire := false, isDoubleBullet := false, powerupTimer := 0.0),
     CreateExplosion(ex, p.x, p.y, p.width))
  }

  /** The second pass over enemy bullets 0 .. n-1 (src/game.c:696-714): each
      one inside the player's box is spent and costs a life. */
  function ShotsAtPlayerN(p: Player, s: seq<Bullet>, ex: seq<Explosion>, box: Box, n: nat): (r: (Player, seq<Bullet>, seq<Explosion>))
    requires n <= |s|
    ensures |r.1| == |s| && |r.2| == |ex|
    ensures forall k :: 0 <= k < |s| ==>
            && r.1[k] == s[k].(active := r.1[k].active)
            && r.1[k].active == (s[k].active && !(k < n && Overlaps(s[k].x, s[k].y, s[k].width, s[k].height, box)))
    ensures p.lives - r.0.lives == CountTrue(BulletFlags(s)) - CountTrue(BulletFlags(r.1))
    ensures r.0 == p.(lives := r.0.lives, isRapidFire := r.0.isRapidFire,
                      isDoubleBullet := r.0.isDoubleBullet, powerupTimer := r.0.powerupTimer)
    ensures r.0.lives <= p.lives
    ensures r.0.lives < p.lives ==> !r.0.isRapidFire && !r.0.isDoubleBullet
    ensures PowerupTimed(p) ==> PowerupTimed(r.0)
  {
    if n == 0 then (p, s, ex)
    else
      var v := ShotsAtPlayerN(p, s, ex, box, n - 1);
      var b := v.1[n - 1];
      if b.active && Overlaps(b.x, b.y, b.width, b.height, box) then
        var h := PlayerHit(v.0, v.2);
        var s1 := v.1[n - 1 := b.(active := false)];
        assert BulletFlags(s1) == BulletFlags(v.1)[n - 1 := false];
        CountTrueUpdate(BulletFlags(v.1), n - 1, false);
        (h.0, s1, h.1)
      else v
  }

  /** Whether enemy `k` is active inside the player's box. */
  predicate Rammed(e: Enemy, box: Box)
  {
    e.active && Overlaps(e.x, e.y, e.width, e.height, box)
  }

  /** How many of enemies 0 .. n-1 are active inside the player's box. */
  function RamCount(s: seq<Enemy>, box: Box, n: nat): nat
    requires n <= |s|
  {
    if n == 0 then 0 else RamCount(s, box, n - 1) + (if Rammed(s[n - 1], box) then 1 else 0)
  }

  /** Whether one of enemies 0 .. n-1 is the boss, active inside the
      player's box. */
  predicate BossRammed(s: seq<Enemy>, box: Box, n: nat)
    requires n <= |s|
  {
    n > 0 && (BossRammed(s, box, n - 1) || (Rammed(s[n - 1], box) && s[n - 1].kind == Boss))
  }

  /** The third pass over enemies 0 .. n-1 (src/game.c:716-740): a ship
      inside the player's box costs a life and explodes; it is destroyed,
      except the boss, which instead knocks the player back to x = 50. */
  function RamsN(p: Player, s: seq<Enemy>, ex: seq<Explosion>, box: Box, n: nat): (r: (Player, seq<Enemy>, seq<Explosion>))
    requires n <= |s|
    ensures |r.1| == |s| && |r.2| == |ex|
    ensures forall k :: 0 <= k < |s| ==>
            && r.1[k] == s[k].(active := r.1[k].active)
            && r.1[k].active == (s[k].active && !(k < n && s[k].kind != Boss &&
                                   Overlaps(s[k].x, s[k].y, s[k].width, s[k].height, box)))
    ensures r.0 == p.(x := r.0.x, lives := r.0.lives, isRapidFire := r.0.isRapidFire,
                      isDoubleBullet := r.0.isDoubleBullet, powerupTimer := r.0.powerupTimer)
    ensures r.0.x == p.x || r.0.x == 50.0
    ensures r.0.x == if BossRammed(s, box, n) then 50.0 else p.x
    ensures r.0.lives == p.lives - RamCount(s, box, n)
    ensures p.lives - r.0.lives >= CountTrue(EnemyFlags(s)) - CountTrue(EnemyFlags(r.1)) >= 0
    ensures r.0.lives <= p.lives
    ensures r.0.lives < p.lives ==> !r.0.isRapidFire && !r.0.isDoubleBullet
    ensures PowerupTimed(p) ==> PowerupTimed(r.0)
  {
    if n == 0 then (p, s, ex)
    else
      var v := RamsN(p, s, ex, box, n - 1);
      var e := v.1[n - 1];
      assert e == s[n - 1];
      if e.active && Overlaps(e.x, e.y, e.width, e.height, box) then
        var h := PlayerHit(v.0, v.2);
        var ex1 := CreateExplosion(h.1, e.x, e.y, e.width);
        if e.kind != Boss then
          var s1 := v.1[n - 1 := e.(active := false)];
          assert EnemyFlags(s1) == EnemyFlags(v.1)[n - 1 := false];
          CountTrueUpdate(EnemyFlags(v.1), n - 1, false);
          (h.0, s1, ex1)
        else (h.0.(x := 50.0), v.1, ex1)
      else v
  }

  /** How many of powerups 0 .. n-1 are active, of type `t` and inside the
      player's box. */
  function Picks(s: seq<Powerup>, box: Box, n: nat, t: PowerupType): nat
    requires n <= |s|
  {
    if n == 0 then 0
    else Picks(s, box, n - 1, t) +
         (if s[n - 1].active && s[n - 1].kind == t && Overlaps(s[n - 1].x, s[n - 1].y, s[n - 1].width, s[n - 1].height, box)
          then 1 else 0)
  }

  /** The fourth pass over powerups 0 .. n-1 (src/game.c:742-769): touching a
      powerup uses it up; health gives a life up to three, the others switch
      on their power for ten seconds. */
  function PickupsN(p: Player, s: seq<Powerup>, box: Box, n: nat): (r: (Player, seq<Powerup>))
    requires n <= |s|
    ensures |r.1| == |s|
    ensures forall k :: 0 <= k < |s| ==>
            && r.1[k] == s[k].(active := r.1[k].active)
            && r.1[k].active == (s[k].active && !(k < n && Overlaps(s[k].x, s[k].y, s[k].width, s[k].height, box)))
    ensures r.0 == p.(lives := r.0.lives, isRapidFire := r.0.isRapidFire,
                      isDoubleBullet := r.0.isDoubleBullet, powerupTimer := r.0.powerupTimer)
    ensures p.lives <= r.0.lives <= (if p.lives < 3 then 3 else p.lives)
    ensures p.isRapidFire ==> r.0.isRapidFire
    ensures p.isDoubleBullet ==> r.0.isDoubleBullet
    ensures PowerupTimed(p) ==> PowerupTimed(r.0)
    ensures r.0.isRapidFire == (p.isRapidFire || Picks(s, box, n, RapidFire) > 0)
    ensures r.0.isDoubleBullet == (p.isDoubleBullet || Picks(s, box, n, DoubleBullet) > 0)
    ensures r.0.powerupTimer ==
            if Picks(s, box, n, RapidFire) + Picks(s, box, n, DoubleBullet) > 0 then PowerupDuration else p.powerupTimer
    ensures var m := Picks(s, box, n, Health);
            r.0.lives == if p.lives >= 3 then p.lives else if p.lives + m >= 3 then 3 else p.lives + m
  {
    if n == 0 then (p, s)
    else
      var v := PickupsN(p, s, box, n - 1);
      var u := v.1[n - 1];
      assert u == s[n - 1];
      if u.active && Overlaps(u.x, u.y, u.width, u.height, box) then
        var pl := v.0;
        var pl1 :=
          match u.kind
          case Health => if pl.lives < 3 then pl.(lives := pl.lives + 1) else pl
          case RapidFire => pl.(isRapidFire := true, powerupTimer := PowerupDuration)
          case DoubleBullet => pl.(isDoubleBullet := true, powerupTimer := PowerupDuration);
        (pl1, v.1[n - 1 := u.(active := false)])
      else v
  }

  /** The first pass on a world (src/game.c:637-694), as written: the
      fight's outcome written back. */
  function ShootPhase(w: World, rand: Oracle): (r: World)
    ensures r == w.(player := r.player, bullets := r.bullets, enemies := r.enemies, powerups := r.powerups,
                    explosions := r.explosions, level := r.level, draws := r.draws)
    ensures r.player == w.player.(score := r.player.score) && r.level == w.level.(bossDefeated := r.level.bossDefeated)
  {
    var f := ShootEnemiesAsWritten(FightOf(w), w.player.lives, rand);
    w.(player := w.player.(score := f.score), bullets := f.bullets, enemies := f.enemies, powerups := f.powerups,
       explosions := f.explosions, level := w.level.(bossDefeated := f.bossDefeated), draws := f.draws)
  }

  /** The first pass on a world writes the fight's outcome back. */
  lemma ShootPhaseSteps(w: World, rand: Oracle, f: Fight)
    requires f == ShootEnemiesAsWritten(FightOf(w), w.player.lives, rand)
    ensures ShootPhase(w, rand) ==
            w.(player := w.player.(score := f.score), bullets := f.bullets, enemies := f.enemies, powerups := f.powerups,
               explosions := f.explosions, level := w.level.(bossDefeated := f.bossDefeated), draws := f.draws)
  {
  }

  /** The second pass on a world (src/game.c:696-714). */
  function ShotsPhase(w: World, box: Box): (r: World)
    ensures r == w.(player := r.player, enemyBullets := r.enemyBullets, explosions := r.explosions)
  {
    var s := ShotsAtPlayerN(w.player, w.enemyBullets, w.explosions, box, |w.enemyBullets|);
    w.(player := s.0, enemyBullets := s.1, explosions := s.2)
  }

  /** The third pass on a world (src/game.c:716-740). */
  function RamsPhase(w: World, box: Box): (r: World)
    ensures r == w.(player := r.player, enemies := r.enemies, explosions := r.explosions)
  {
    var m := RamsN(w.player, w.enemies, w.explosions, box, |w.enemies|);
    w.(player := m.0, enemies := m.1, explosions := m.2)
  }

  /** The fourth pass on a world (src/game.c:742-769). */
  function PickupsPhase(w: World, box: Box): (r: World)
    ensures r == w.(player := r.player, powerups := r.powerups)
  {
    var u := PickupsN(w.player, w.powerups, box, |w.powerups|);
    w.(player := u.0, powerups := u.1)
  }

  /** The passes against the player's box, in order (src/game.c:696-769). */
  function PlayerPhase(w: World, box: Box): (r: World)
    ensures r == w.(player := r.player, enemyBullets := r.enemyBullets, enemies := r.enemies,
                    powerups := r.powerups, explosions := r.explosions)
  {
    PickupsPhase(RamsPhase(ShotsPhase(w, box), box), box)
  }

  /** handleCollisions (src/game.c:628-770); the player's box is taken
      before the first pass. */
  function Collide(w: World, rand: Oracle): (r: World)
    ensures r == w.(player := r.player, bullets := r.bullets, enemies := r.enemies, enemyBullets := r.enemyBullets,
                    powerups := r.powerups, explosions := r.explosions, level := r.level, draws := r.draws)
    ensures r.level == w.level.(bossDefeated := r.level.bossDefeated)
    ensures |r.bullets| == |w.bullets| && |r.enemies| == |w.enemies| && |r.enemyBullets| == |w.enemyBullets|
    ensures |r.powerups| == |w.powerups| && |r.explosions| == |w.explosions| && r.draws >= w.draws
  {
    PlayerPhase(ShootPhase(w, rand), PlayerBox(w.player))
  }

  /** What handleCollisions does on all inputs: it keeps the world's
      invariant, the player on screen (the boss's knock-back to x = 50
      included), the timed-power rule and lives no higher than three unless
      they already were. The score rises by StalePay, which is at least the
      worth of the enemies shot dead; a player bullet survives exactly when
      it was in flight and touched no enemy active at the start; only
      enemies active at the start are gone, and shooting the boss dead
      raises the level's boss flag. */
  lemma CollideEffects(w: World, rand: Oracle)
    requires WorldOk(w)
    ensures var r := Collide(w, rand);
            var f := ShootEnemiesAsWritten(FightOf(w), w.player.lives, rand);
            && WorldOk(r)
            && (PlayerInBounds(w.player) ==> PlayerInBounds(r.player))
            && (PowerupTimed(w.player) ==> PowerupTimed(r.player))
            && r.player.lives <= (if w.player.lives < 3 then 3 else w.player.lives)
            && r.player.score == w.player.score + StalePay(w.enemies, f.enemies)
            && r.player.score >= w.player.score + KillScore(w.enemies, f.enemies) >= w.player.score
            && (forall k :: 0 <= k < |w.bullets| ==>
                  (r.bullets[k].active <==>
                     w.bullets[k].active && forall j :: 0 <= j < |w.enemies| && w.enemies[j].active ==> !Touches(w.bullets[k], w.enemies[j])))
            && (forall k :: 0 <= k < |w.enemies| ==> r.enemies[k].active ==> w.enemies[k].active)
            && (forall k :: 0 <= k < |w.enemies| ==>
                  w.enemies[k].active && w.enemies[k].kind == Boss && !f.enemies[k].active ==> r.level.bossDefeated)
  {
    var f := ShootEnemiesAsWritten(FightOf(w), w.player.lives, rand);
    ShootEnemiesAsWrittenEffects(FightOf(w), w.player.lives, rand);
    CollideKeepsWorldOk(w, rand);
  }

  /** handleCollisions keeps the world's invariant. */
  lemma CollideKeepsWorldOk(w: World, rand: Oracle)
    requires WorldOk(w)
    ensures WorldOk(Collide(w, rand))
  {
    var r := Collide(w, rand);
    AsWrittenScore(FightOf(w), w.player.lives, rand);
    assert r.player.score >= 0;
    assert forall k :: 0 <= k < |r.enemies| ==> EnemyShaped(r.enemies[k]) by {
      forall k | 0 <= k < |r.enemies| ensures EnemyShaped(r.enemies[k]) {
        assert EnemyShaped(w.enemies[k]);
      }
    }
  }
}
