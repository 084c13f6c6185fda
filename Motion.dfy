/** The per-frame motion of updateGame in src/game.c (lines 82-369): the
    player's move and timers, then one pass over each pool. A pool pass that
    may call rand() is a left-to-right fold over the slots, because the calls
    happen in slot order; `k` is the number of rand() calls made before. */
module Motion {
  import opened GameTypes
  import opened Pools
  import opened World
  import opened Spawning

  // ----- Player -----

  /** The (dx, dy) one frame in direction `d` adds before clamping
      (src/game.c:82-113); y grows downward. */
  function Displacement(d: Direction, dt: real): (v: (real, real))
    ensures d == None ==> v == (0.0, 0.0)
    ensures dt > 0.0 ==> (v.0 < 0.0 <==> d == Left || d == UpLeft || d == DownLeft)
    ensures dt > 0.0 ==> (v.0 > 0.0 <==> d == Right || d == UpRight || d == DownRight)
    ensures dt > 0.0 ==> (v.1 < 0.0 <==> d == Up || d == UpLeft || d == UpRight)
    ensures dt > 0.0 ==> (v.1 > 0.0 <==> d == Down || d == DownLeft || d == DownRight)
    ensures d == Up || d == Down || d == Left || d == Right ==>
            Abs(v.0) + Abs(v.1) == PlayerSpeed * Abs(dt) && (v.0 == 0.0 || v.1 == 0.0)
    ensures d == UpLeft || d == UpRight || d == DownLeft || d == DownRight ==>
            Abs(v.0) == Abs(v.1) == PlayerSpeed * DiagonalFactor * Abs(dt)
  {
    var s := PlayerSpeed * dt;
    var g := PlayerSpeed * DiagonalFactor * dt;
    match d
    case None => (0.0, 0.0)
    case Up => (0.0, -s)
    case Down => (0.0, s)
    case Left => (-s, 0.0)
    case Right => (s, 0.0)
    case UpLeft => (-g, -g)
    case UpRight => (g, -g)
    case DownLeft => (-g, g)
    case DownRight => (g, g)
  }

  /** The player's move and screen clamp (src/game.c:82-129). */
  function MovePlayer(p: Player, dt: real): (r: Player)
    ensures r == p.(x := r.x, y := r.y)
    ensures 0.0 <= p.width <= ScreenWidth && 0.0 <= p.height && 3.0 * p.height <= 2.0 * ScreenHeight ==>
            PlayerInBounds(r)
    ensures var t := (p.x + Displacement(p.direction, dt).0, p.y + Displacement(p.direction, dt).1);
            PlayerInBounds(p.(x := t.0, y := t.1)) ==> r.x == t.0 && r.y == t.1
  {
    var v := Displacement(p.direction, dt);
    var hw := p.width * 0.5;
    var hh := p.height * 0.5;
    p.(x := Clamp(p.x + v.0, hw, ScreenWidth - hw),
       y := Clamp(p.y + v.1, hh, ScreenHeight - p.height))
  }

  /** The bullet cooldown and power-up timer ticks (src/game.c:131-141). */
  function TickTimers(p: Player, dt: real): (r: Player)
    ensures r == p.(bulletCooldown := r.bulletCooldown, powerupTimer := r.powerupTimer,
                    isRapidFire := r.isRapidFire, isDoubleBullet := r.isDoubleBullet)
    ensures r.bulletCooldown == if p.bulletCooldown > 0.0 then p.bulletCooldown - dt else p.bulletCooldown
    ensures r.powerupTimer == if p.powerupTimer > 0.0 then p.powerupTimer - dt else p.powerupTimer
    ensures p.powerupTimer > 0.0 && p.powerupTimer <= dt ==> !r.isRapidFire && !r.isDoubleBullet
    ensures !(p.powerupTimer > 0.0 && p.powerupTimer <= dt) ==>
            r.isRapidFire == p.isRapidFire && r.isDoubleBullet == p.isDoubleBullet
    ensures PowerupTimed(p) ==> PowerupTimed(r)
  {
    var p1 := if p.bulletCooldown > 0.0 then p.(bulletCooldown := p.bulletCooldown - dt) else p;
    if p1.powerupTimer > 0.0 then
      var t := p1.powerupTimer - dt;
      if t <= 0.0 then p1.(powerupTimer := t, isRapidFire := false, isDoubleBullet := false)
      else p1.(powerupTimer := t)
    else p1
  }

  /** `n` frames of timer ticks: they touch only the timers and the two
      powers, never switch a power on, and keep the timed-power rule. */
  function TickTimersN(p: Player, dt: real, n: nat): (r: Player)
    ensures r == p.(bulletCooldown := r.bulletCooldown, powerupTimer := r.powerupTimer,
                    isRapidFire := r.isRapidFire, isDoubleBullet := r.isDoubleBullet)
    ensures (r.isRapidFire ==> p.isRapidFire) && (r.isDoubleBullet ==> p.isDoubleBullet)
    ensures PowerupTimed(p) ==> PowerupTimed(r)
    decreases n
  {
    if n == 0 then p else TickTimersN(TickTimers(p, dt), dt, n - 1)
  }

  /** A timed power wears off: with frames of positive length, once the
      frames add up to the timer the power is gone. */
  lemma {:induction false} PowerupWearsOff(p: Player, dt: real, n: nat)
    requires PowerupTimed(p) && dt > 0.0
    requires n as real * dt >= p.powerupTimer
    ensures !TickTimersN(p, dt, n).isRapidFire && !TickTimersN(p, dt, n).isDoubleBullet
    decreases n
  {
    if n > 0 {
      var q := TickTimers(p, dt);
      if p.powerupTimer > dt {
        assert (n - 1) as real * dt >= q.powerupTimer;
        PowerupWearsOff(q, dt, n - 1);
      } else {
        PowerupStaysOff(q, dt, n - 1);
      }
    }
  }

  /** A cleared power stays cleared under the timer ticks. */
  lemma {:induction false} PowerupStaysOff(p: Player, dt: real, n: nat)
    requires !p.isRapidFire && !p.isDoubleBullet
    ensures !TickTimersN(p, dt, n).isRapidFire && !TickTimersN(p, dt, n).isDoubleBullet
    decreases n
  {
    if n > 0 {
      PowerupStaysOff(TickTimers(p, dt), dt, n - 1);
    }
  }

  // ----- Bullets -----

  /** The y a benchmark bullet re-enters at: BULLET_HEIGHT/2.0 plus a draw
      below (int)(316 - 2 + 1) = 315. */
  function ReentryShotY(v: nat): (y: real)
    ensures ShotMinY <= y <= ShotMaxY
  {
    ShotMinY + (v % 315) as real
  }

  /** Which of the two bullet pools a bullet lives in. */
  datatype Side = Players | Enemies

  /** One bullet's frame (src/game.c:143-194): the player's bullets move by
      +speed, the enemies' by -speed. Off screen, a bullet is dropped in a
      normal game and wraps to the other edge at a random height in the
      benchmark (the player's bullets only when moving toward that edge). */
  function StepShot(b: Bullet, side: Side, dt: real, bench: bool, rand: Oracle, k: nat): (r: (Bullet, nat))
    ensures r.0 == b.(x := r.0.x, y := r.0.y, active := r.0.active)
    ensures r.1 == k || r.1 == k + 1
    ensures !b.active ==> r == (b, k)
    ensures bench ==> r.0.active == b.active
    ensures !bench ==> r.0.active ==> b.active
    ensures !bench ==> r.0.y == b.y && r.1 == k
    ensures !bench && r.0.active ==> -b.height <= r.0.y <= ScreenHeight + b.height
    ensures !bench && r.0.active && side == Players ==> r.0.x <= ScreenWidth + b.width
    ensures !bench && r.0.active && side == Enemies ==> r.0.x >= -b.width
    ensures bench && r.1 == k + 1 ==> ShotMinY <= r.0.y <= ShotMaxY
  {
    if !b.active then (b, k)
    else
      var x := if side == Players then b.x + b.speed * dt else b.x - b.speed * dt;
      var b1 := b.(x := x);
      if bench then
        match side
        case Players =>
          if b.speed < 0.0 && x < -b.width then
            (b1.(x := ScreenWidth - b.width / 2.0, y := ReentryShotY(rand(k))), k + 1)
          else if b.speed > 0.0 && x > ScreenWidth + b.width then
            (b1.(x := b.width / 2.0, y := ReentryShotY(rand(k))), k + 1)
          else (b1, k)
        case Enemies =>
          if x < -b.width then
            (b1.(x := ScreenWidth - b.width / 2.0, y := ReentryShotY(rand(k))), k + 1)
          else (b1, k)
      else
        var past := if side == Players then x > ScreenWidth + b.width else x < -b.width;
        var offY := b.y < -b.height || b.y > ScreenHeight + b.height;
        (b1.(active := !past && !offY), k)
  }

  /** The pass over the first `n` slots of a bullet pool. */
  function StepShots(s: seq<Bullet>, side: Side, dt: real, bench: bool, rand: Oracle, k: nat, n: nat): (r: (seq<Bullet>, nat))
    requires n <= |s|
    ensures |r.0| == |s| && r.1 >= k
    ensures forall j :: n <= j < |s| ==> r.0[j] == s[j]
    ensures forall j :: 0 <= j < n ==> r.0[j] == s[j].(x := r.0[j].x, y := r.0[j].y, active := r.0[j].active)
    ensures forall j :: 0 <= j < n ==> !s[j].active ==> r.0[j] == s[j]
    ensures forall j :: 0 <= j < n ==> if bench then r.0[j].active == s[j].active else r.0[j].active ==> s[j].active
    ensures !bench ==> r.1 == k
    ensures !bench ==> forall j :: 0 <= j < n && r.0[j].active ==> -s[j].height <= r.0[j].y <= ScreenHeight + s[j].height
    ensures !bench && side == Players ==> forall j :: 0 <= j < n && r.0[j].active ==> r.0[j].x <= ScreenWidth + s[j].width
    ensures !bench && side == Enemies ==> forall j :: 0 <= j < n && r.0[j].active ==> r.0[j].x >= -s[j].width
  {
    if n == 0 then (s, k)
    else
      var v := StepShots(s, side, dt, bench, rand, k, n - 1);
      var b := StepShot(v.0[n - 1], side, dt, bench, rand, v.1);
      (v.0[n - 1 := b.0], b.1)
  }

  /** A bullet pass keeps the active count in the benchmark and never raises
      it in a normal game. */
  lemma StepShotsCount(s: seq<Bullet>, side: Side, dt: real, bench: bool, rand: Oracle, k: nat)
    ensures var r := StepShots(s, side, dt, bench, rand, k, |s|).0;
            && (bench ==> BulletFlags(r) == BulletFlags(s))
            && CountTrue(BulletFlags(r)) <= CountTrue(BulletFlags(s))
  {
    var r := StepShots(s, side, dt, bench, rand, k, |s|).0;
    if bench {
      assert BulletFlags(r) == BulletFlags(s);
    } else {
      CountTrueMonotone(BulletFlags(r), BulletFlags(s));
    }
  }

  // ----- Enemies -----

  /** A Large enemy's or the boss's shot (src/game.c:218-237, 256-274): the
      lowest free enemy-bullet slot, if any, becomes a bullet moving left at
      200 from x minus that slot's previous width, with y clamped to [2, 316].
      The flag says whether a slot was found. */
  function EnemyShot(s: seq<Bullet>, x: real, y: real): (r: (seq<Bullet>, bool))
    ensures |r.0| == |s|
    ensures FilledLowestFree(BulletFlags(s), BulletFlags(r.0))
    ensures r.1 <==> FirstFreeFrom(BulletFlags(s), 0) < |s|
    ensures forall j :: 0 <= j < |s| && s[j].active ==> r.0[j] == s[j]
    ensures forall j :: 0 <= j < |s| && !s[j].active && r.0[j].active ==>
            r.0[j] == Bullet(x - s[j].width, ShotY(y), BulletWidth, BulletHeight, EnemyBulletSpeed, true)
  {
    var j := FirstFreeFrom(BulletFlags(s), 0);
    if j == |s| then (s, false)
    else
      var t := s[j := Bullet(x - s[j].width, ShotY(y), BulletWidth, BulletHeight, EnemyBulletSpeed, true)];
      assert BulletFlags(t) == BulletFlags(s)[j := true];
      (t, true)
  }

  /** The boss's three shots at y - 20, y and y + 20 (src/game.c:255-275). */
  function BossVolley(s: seq<Bullet>, x: real, y: real): (r: seq<Bullet>)
    ensures |r| == |s|
    ensures forall j :: 0 <= j < |s| && s[j].active ==> r[j] == s[j]
  {
    EnemyShot(EnemyShot(EnemyShot(s, x, y - 20.0).0, x, y).0, x, y + 20.0).0
  }

  /** The volley fills three free slots, or all that are left. */
  lemma BossVolleyCount(s: seq<Bullet>, x: real, y: real)
    ensures var c := CountTrue(BulletFlags(s));
            CountTrue(BulletFlags(BossVolley(s, x, y))) == if c + 3 <= |s| then c + 3 else |s|
  {
    var s1 := EnemyShot(s, x, y - 20.0).0;
    var s2 := EnemyShot(s1, x, y).0;
    var s3 := EnemyShot(s2, x, y + 20.0).0;
    FilledLowestFreeSaturates(BulletFlags(s), BulletFlags(s1));
    FilledLowestFreeSaturates(BulletFlags(s1), BulletFlags(s2));
    FilledLowestFreeSaturates(BulletFlags(s2), BulletFlags(s3));
  }

  /** What an enemy's type makes it do after its horizontal move
      (src/game.c:200-279): the small one weaves on a sine, the medium one
      drifts and every few seconds re-draws its drift direction, the large
      one shoots once its cooldown runs out and restarts the 2-second
      cooldown only when it found a free slot, and the boss bobs on a sine
      about mid-screen and fires a volley and restarts its 1-second cooldown
      whenever the cooldown runs out. */
  function Manoeuvre(e: Enemy, shots: seq<Bullet>, dt: real, rand: Oracle, sin: Wave, k: nat): (r: (Enemy, seq<Bullet>, nat))
    ensures r.0 == e.(y := r.0.y, speed := r.0.speed, movementPattern := r.0.movementPattern,
                      bulletCooldown := r.0.bulletCooldown)
    ensures Abs(r.0.speed) == Abs(e.speed)
    ensures e.kind != Medium ==> r.0.speed == e.speed && r.2 == k
    ensures e.kind == Medium ==> r.2 == k || r.2 == k + 2
    ensures |r.1| == |shots|
    ensures forall j :: 0 <= j < |shots| && shots[j].active ==> r.1[j] == shots[j]
    ensures e.kind == Small || e.kind == Medium ==> r.1 == shots
    ensures e.kind == Large ==> FilledLowestFree(BulletFlags(shots), BulletFlags(r.1)) || r.1 == shots
    ensures e.kind == Boss && 0.0 <= e.height <= 200.0 ==> e.height / 2.0 <= r.0.y <= ScreenHeight - e.height
    ensures e.kind == Large && e.bulletCooldown - dt > 0.0 ==>
            r.1 == shots && r.0.bulletCooldown == e.bulletCooldown - dt
    ensures e.kind == Large && e.bulletCooldown - dt <= 0.0 ==>
            && r.1 == EnemyShot(shots, e.x, e.y).0
            && r.0.bulletCooldown == if FirstFreeFrom(BulletFlags(shots), 0) < |shots| then 2.0 else e.bulletCooldown - dt
    ensures e.kind == Boss && e.bulletCooldown - dt <= 0.0 ==>
            r.0.bulletCooldown == 1.0 && r.1 == BossVolley(shots, e.x, r.0.y)
    ensures e.kind == Boss && e.bulletCooldown - dt > 0.0 ==>
            r.0.bulletCooldown == e.bulletCooldown - dt && r.1 == shots
  {
    match e.kind
    case Small =>
      var mp := e.movementPattern + 3.0 * dt;
      (e.(movementPattern := mp, y := e.y + sin(mp) * 1.5), shots, k)
    case Medium =>
      var mp := e.movementPattern - dt;
      var turn := mp <= 0.0;
      var speed := if !turn then e.speed else if rand(k) % 2 == 0 then Abs(e.speed) else -Abs(e.speed);
      var mp1 := if turn then (rand(k + 1) % 3) as real + 1.0 else mp;
      (e.(speed := speed, movementPattern := mp1, y := e.y + speed * 0.3 * dt), shots, if turn then k + 2 else k)
    case Large =>
      var cd := e.bulletCooldown - dt;
      if cd <= 0.0 then
        var fired := EnemyShot(shots, e.x, e.y);
        (e.(bulletCooldown := if fired.1 then 2.0 else cd), fired.0, k)
      else (e.(bulletCooldown := cd), shots, k)
    case Boss =>
      var mp := e.movementPattern + dt;
      var y := Clamp(160.0 + sin(mp) * 106.0, e.height / 2.0, ScreenHeight - e.height);
      var cd := e.bulletCooldown - dt;
      var e1 := e.(movementPattern := mp, y := y);
      if cd <= 0.0 then (e1.(bulletCooldown := 1.0), BossVolley(shots, e.x, y), k)
      else (e1.(bulletCooldown := cd), shots, k)
  }

  /** The vertical clamp every enemy gets, where a medium enemy hitting an
      edge turns its drift away from it (src/game.c:281-291). */
  function ClampEnemyY(e: Enemy): (r: Enemy)
    ensures r == e.(y := r.y, speed := r.speed)
    ensures Abs(r.speed) == Abs(e.speed)
    ensures e.kind != Medium ==> r.speed == e.speed
    ensures 0.0 <= e.height <= 200.0 ==> e.height / 2.0 <= r.y <= ScreenHeight - e.height
    ensures e.kind == Medium && e.y < e.height / 2.0 ==> r.speed >= 0.0
    ensures e.kind == Medium && e.height / 2.0 <= e.y && e.y > ScreenHeight - e.height ==> r.speed <= 0.0
    ensures e.height / 2.0 <= e.y <= ScreenHeight - e.height ==> r == e
  {
    if e.y < e.height / 2.0 then
      e.(y := e.height / 2.0, speed := if e.kind == Medium then Abs(e.speed) else e.speed)
    else if e.y > ScreenHeight - e.height then
      e.(y := ScreenHeight - e.height, speed := if e.kind == Medium then -Abs(e.speed) else e.speed)
    else e
  }

  /** A normal game keeps the boss in the right half of the screen
      (src/game.c:293-301). */
  function HoldBoss(e: Enemy, bench: bool): (r: Enemy)
    ensures r == e.(x := r.x)
    ensures e.kind == Boss && !bench && e.width <= ScreenWidth ==>
            ScreenWidth / 2.0 <= r.x <= ScreenWidth - e.width / 2.0
    ensures e.kind != Boss || bench ==> r == e
  {
    if e.kind == Boss && !bench then e.(x := Clamp(e.x, ScreenWidth / 2.0, ScreenWidth - e.width / 2.0))
    else e
  }

  /** Leaving the screen (src/game.c:303-326): a normal game drops an enemy
      (never the boss) fully past the left edge; the benchmark instead sends
      one a quarter past the edge back in from the right, inside the spawn
      band, at a random height and phase. */
  function Recycle(e: Enemy, bench: bool, band: real, rand: Oracle, k: nat): (r: (Enemy, nat))
    ensures !bench ==> r.0 == e.(active := r.0.active) && r.1 == k
    ensures !bench ==> (r.0.active <==> e.active && !(e.x < -e.width && e.kind != Boss))
    ensures bench ==> r.0 == e.(x := r.0.x, y := r.0.y, movementPattern := r.0.movementPattern,
                                bulletCooldown := r.0.bulletCooldown)
    ensures bench && !(e.x < -e.width * 0.25) ==> r == (e, k)
    ensures bench && e.x < -e.width * 0.25 ==>
            && ScreenWidth - e.width / 2.0 - ScreenWidth * EffectiveBand(band) <= r.0.x <= ScreenWidth - e.width / 2.0
            && (0.0 <= e.height <= 200.0 ==> e.height / 2.0 <= r.0.y <= ScreenHeight - e.height)
            && 0.0 <= r.0.movementPattern < 6.28
            && r.1 == k + (if e.kind == Large || e.kind == Boss then 4 else 3)
  {
    if !bench then
      if e.x < -e.width && e.kind != Boss then (e.(active := false), k) else (e, k)
    else if e.x < -e.width * 0.25 then
      var minY := e.height / 2.0;
      var maxY := ScreenHeight - e.height;
      var jitter := CMod(rand(k), Trunc(ScreenWidth * EffectiveBand(band) + 1.0));
      var e1 := e.(x := (ScreenWidth - e.width / 2.0) - jitter as real,
                   y := minY + CMod(rand(k + 1), Trunc(maxY - minY + 1.0)) as real,
                   movementPattern := (rand(k + 2) % 628) as real / 100.0);
      if e.kind == Large || e.kind == Boss then
        (e1.(bulletCooldown := (rand(k + 3) % 3) as real * 0.5 + 0.2), k + 4)
      else (e1, k + 3)
    else (e, k)
  }

  /** An enemy keeps what it is: type, size, health and score. */
  predicate SameBody(a: Enemy, b: Enemy)
  {
    a.kind == b.kind && a.width == b.width && a.height == b.height && a.health == b.health && a.score == b.score
  }

  /** An enemy's activity across a frame of motion: unchanged in the
      benchmark; in a normal game only dropped, and the boss never is. */
  predicate ActivityKept(a: Enemy, b: Enemy, bench: bool)
  {
    if bench then b.active == a.active
    else (b.active ==> a.active) && (a.active && a.kind == Boss ==> b.active)
  }

  /** An enemy's drift to the left over `dt` seconds (src/game.c:198). */
  function Advance(e: Enemy, dt: real): (r: Enemy)
    ensures r == e.(x := r.x)
  {
    e.(x := e.x - e.speed * dt)
  }

  /** Enemy slot `i`'s frame (src/game.c:197-327): an active enemy moves
      left, performs its type's manoeuvre, is clamped and is recycled or
      retired at the left edge. */
  function StepEnemyAt(w: World, i: nat, dt: real, rand: Oracle, sin: Wave): (r: World)
    requires i < |w.enemies|
    ensures r == w.(enemies := r.enemies, enemyBullets := r.enemyBullets, draws := r.draws)
    ensures |r.enemies| == |w.enemies| && |r.enemyBullets| == |w.enemyBullets| && r.draws >= w.draws
    ensures forall j :: 0 <= j < |w.enemies| && j != i ==> r.enemies[j] == w.enemies[j]
    ensures forall j :: 0 <= j < |w.enemyBullets| && w.enemyBullets[j].active ==> r.enemyBullets[j] == w.enemyBullets[j]
    ensures !w.enemies[i].active ==> r == w
    ensures SameBody(w.enemies[i], r.enemies[i])
    ensures ActivityKept(w.enemies[i], r.enemies[i], w.benchmarkMode)
    ensures r.enemies[i].active && EnemyShaped(w.enemies[i]) ==>
            w.enemies[i].height / 2.0 <= r.enemies[i].y <= ScreenHeight - w.enemies[i].height
    ensures !w.benchmarkMode && r.enemies[i].active && r.enemies[i].kind == Boss && EnemyShaped(w.enemies[i]) ==>
            ScreenWidth / 2.0 <= r.enemies[i].x <= ScreenWidth - r.enemies[i].width / 2.0
  {
    var e := w.enemies[i];
    if !e.active then w
    else
      var f := Settled(Manoeuvre(Advance(e, dt), w.enemyBullets, dt, rand, sin, w.draws),
                       w.benchmarkMode, w.benchmarkSpawnBand, rand);
      w.(enemies := w.enemies[i := f.0], enemyBullets := f.1, draws := f.2)
  }

  /** An active enemy's slot takes the outcome `m` of its frame. */
  lemma StepEnemyAtActive(w: World, i: nat, dt: real, rand: Oracle, sin: Wave,
                          e: Enemy, shots: seq<Bullet>, k: nat, m: (Enemy, seq<Bullet>, nat))
    requires i < |w.enemies| && w.enemies[i] == e && e.active && w.enemyBullets == shots && w.draws == k
    requires m == Settled(Manoeuvre(Advance(e, dt), shots, dt, rand, sin, k),
                          w.benchmarkMode, w.benchmarkSpawnBand, rand)
    ensures StepEnemyAt(w, i, dt, rand, sin) == w.(enemies := w.enemies[i := m.0], enemyBullets := m.1, draws := m.2)
  {
  }

  /** The end of an enemy's frame after its manoeuvre `m`: the clamps,
      then the recycling at the left edge. */
  function Settled(m: (Enemy, seq<Bullet>, nat), bench: bool, band: real, rand: Oracle): (r: (Enemy, seq<Bullet>, nat))
    ensures r.1 == m.1 && r.2 >= m.2
  {
    var c := Recycle(HoldBoss(ClampEnemyY(m.0), bench), bench, band, rand, m.2);
    (c.0, m.1, c.1)
  }

  /** The enemy pass over the first `n` slots. */
  function StepEnemies(w: World, dt: real, rand: Oracle, sin: Wave, n: nat): (r: World)
    requires n <= |w.enemies|
    ensures r == w.(enemies := r.enemies, enemyBullets := r.enemyBullets, draws := r.draws)
    ensures |r.enemies| == |w.enemies| && |r.enemyBullets| == |w.enemyBullets| && r.draws >= w.draws
    ensures forall j :: n <= j < |w.enemies| ==> r.enemies[j] == w.enemies[j]
    ensures forall j :: 0 <= j < |w.enemyBullets| && w.enemyBullets[j].active ==> r.enemyBullets[j] == w.enemyBullets[j]
  {
    if n == 0 then w
    else StepEnemyAt(StepEnemies(w, dt, rand, sin, n - 1), n - 1, dt, rand, sin)
  }

  /** What one enemy frame promises holds of every enemy the pass has
      reached: it keeps its body and its activity rule, stays in the
      vertical band and a live boss holds the right half of the screen. */
  predicate Reached(a: Enemy, b: Enemy, bench: bool)
  {
    && SameBody(a, b)
    && ActivityKept(a, b, bench)
    && (b.active && EnemyShaped(a) ==> a.height / 2.0 <= b.y <= ScreenHeight - a.height)
    && (!bench && b.active && b.kind == Boss && EnemyShaped(a) ==> ScreenWidth / 2.0 <= b.x <= ScreenWidth - b.width / 2.0)
  }

  lemma {:induction false} StepEnemiesReached(w: World, dt: real, rand: Oracle, sin: Wave, n: nat)
    requires n <= |w.enemies|
    ensures var r := StepEnemies(w, dt, rand, sin, n);
            forall j :: 0 <= j < n ==> Reached(w.enemies[j], r.enemies[j], w.benchmarkMode)
  {
    if n > 0 {
      StepEnemiesReached(w, dt, rand, sin, n - 1);
      var v := StepEnemies(w, dt, rand, sin, n - 1);
      var r := StepEnemyAt(v, n - 1, dt, rand, sin);
      assert r == StepEnemies(w, dt, rand, sin, n);
      forall j | 0 <= j < n ensures Reached(w.enemies[j], r.enemies[j], w.benchmarkMode) {
        if j < n - 1 {
          assert r.enemies[j] == v.enemies[j];
        } else {
          assert v.enemies[j] == w.enemies[j];
        }
      }
    }
  }

  /** The enemy pass never removes an enemy bullet, keeps every enemy
      population in the benchmark and never adds an enemy in a normal game. */
  lemma StepEnemiesCount(w: World, dt: real, rand: Oracle, sin: Wave)
    ensures var r := StepEnemies(w, dt, rand, sin, |w.enemies|);
            && CountTrue(BulletFlags(w.enemyBullets)) <= CountTrue(BulletFlags(r.enemyBullets))
            && (w.benchmarkMode ==> EnemyFlags(r.enemies) == EnemyFlags(w.enemies))
            && CountTrue(EnemyFlags(r.enemies)) <= CountTrue(EnemyFlags(w.enemies))
  {
    var r := StepEnemies(w, dt, rand, sin, |w.enemies|);
    StepEnemiesReached(w, dt, rand, sin, |w.enemies|);
    CountTrueMonotone(BulletFlags(w.enemyBullets), BulletFlags(r.enemyBullets));
    if w.benchmarkMode {
      assert EnemyFlags(r.enemies) == EnemyFlags(w.enemies);
    } else {
      CountTrueMonotone(EnemyFlags(r.enemies), EnemyFlags(w.enemies));
    }
  }

  // ----- Powerups and explosions -----

  /** One powerup's frame (src/game.c:331-353): it drifts left, is clamped
      vertically, and off the left edge is dropped in a normal game or, in
      the benchmark, re-enters on the right with a random height and type. */
  function StepPowerup(p: Powerup, dt: real, bench: bool, rand: Oracle, k: nat): (r: (Powerup, nat))
    ensures r.0 == p.(x := r.0.x, y := r.0.y, active := r.0.active, kind := r.0.kind)
    ensures !p.active ==> r == (p, k)
    ensures bench ==> r.0.active == p.active
    ensures !bench ==> (r.0.active ==> p.active) && r.0.kind == p.kind && r.1 == k
    ensures p.active && 0.0 <= p.height <= 200.0 ==> p.height / 2.0 <= r.0.y <= ScreenHeight - p.height
    ensures !bench && r.0.active ==> r.0.x >= -p.width
    ensures r.1 == k || r.1 == k + 2
  {
    if !p.active then (p, k)
    else
      var p1 := p.(x := p.x - p.speed * dt,
                   y := Clamp(p.y, p.height / 2.0, ScreenHeight - p.height));
      if p1.x < -p.width then
        if bench then
          var minY := p.height / 2.0;
          var maxY := ScreenHeight - p.height;
          (p1.(x := ScreenWidth - p.width / 2.0,
               y := minY + CMod(rand(k), Trunc(maxY - minY + 1.0)) as real,
               kind := PowerupFromOrdinal(rand(k + 1) % 3)), k + 2)
        else (p1.(active := false), k)
      else (p1, k)
  }

  /** The powerup pass over the first `n` slots. */
  function StepPowerups(s: seq<Powerup>, dt: real, bench: bool, rand: Oracle, k: nat, n: nat): (r: (seq<Powerup>, nat))
    requires n <= |s|
    ensures |r.0| == |s| && r.1 >= k
    ensures !bench ==> r.1 == k
    ensures forall j :: n <= j < |s| ==> r.0[j] == s[j]
    ensures forall j :: 0 <= j < n ==> r.0[j] == s[j].(x := r.0[j].x, y := r.0[j].y, active := r.0[j].active, kind := r.0[j].kind)
    ensures forall j :: 0 <= j < n ==> if bench then r.0[j].active == s[j].active else r.0[j].active ==> s[j].active
    ensures forall j :: 0 <= j < n && s[j].active && 0.0 <= s[j].height <= 200.0 ==>
            s[j].height / 2.0 <= r.0[j].y <= ScreenHeight - s[j].height
  {
    if n == 0 then (s, k)
    else
      var v := StepPowerups(s, dt, bench, rand, k, n - 1);
      var p := StepPowerup(v.0[n - 1], dt, bench, rand, v.1);
      (v.0[n - 1 := p.0], p.1)
  }

  /** One explosion's frame (src/game.c:357-368): its remaining life runs
      down; when spent it ends in a normal game and restarts in the benchmark. */
  function TickExplosion(e: Explosion, dt: real, bench: bool): (r: Explosion)
    ensures r == e.(currentLife := r.currentLife, active := r.active)
    ensures !e.active ==> r == e
    ensures bench ==> r.active == e.active
    ensures !bench ==> (r.active <==> e.active && e.currentLife - dt > 0.0)
    ensures e.active && bench ==>
            r.currentLife == if e.currentLife - dt <= 0.0 then e.lifespan else e.currentLife - dt
    ensures e.active && !bench ==> r.currentLife == e.currentLife - dt
  {
    if !e.active then e
    else
      var life := e.currentLife - dt;
      if life <= 0.0 then
        if bench then e.(currentLife := e.lifespan) else e.(currentLife := life, active := false)
      else e.(currentLife := life)
  }

  /** The explosion pass: every slot ticks on its own. Only the countdowns
      and flags change; in the benchmark every explosion stays, otherwise an
      explosion stays exactly while its countdown has time left. */
  function TickExplosions(s: seq<Explosion>, dt: real, bench: bool): (r: seq<Explosion>)
    ensures |r| == |s|
    ensures forall j :: 0 <= j < |s| ==> r[j] == s[j].(currentLife := r[j].currentLife, active := r[j].active)
    ensures bench ==> ExplosionFlags(r) == ExplosionFlags(s)
    ensures !bench ==> forall j :: 0 <= j < |s| ==> (r[j].active <==> s[j].active && s[j].currentLife - dt > 0.0)
  {
    seq(|s|, j requires 0 <= j < |s| => TickExplosion(s[j], dt, bench))
  }

  // ----- The whole motion phase -----

  /** The player's move and timers and both bullet passes
      (src/game.c:82-194). */
  function MoveShots(w: World, dt: real, rand: Oracle): (r: World)
    ensures r == w.(player := r.player, bullets := r.bullets, enemyBullets := r.enemyBullets, draws := r.draws)
    ensures |r.bullets| == |w.bullets| && |r.enemyBullets| == |w.enemyBullets|
    ensures r.draws >= w.draws
  {
    var b := StepShots(w.bullets, Players, dt, w.benchmarkMode, rand, w.draws, |w.bullets|);
    var eb := StepShots(w.enemyBullets, Enemies, dt, w.benchmarkMode, rand, b.1, |w.enemyBullets|);
    w.(player := TickTimers(MovePlayer(w.player, dt), dt), bullets := b.0, enemyBullets := eb.0, draws := eb.1)
  }

  /** The powerup and explosion passes (src/game.c:330-369). */
  function MoveItems(w: World, dt: real, rand: Oracle): (r: World)
    ensures r == w.(powerups := r.powerups, explosions := r.explosions, draws := r.draws)
    ensures |r.powerups| == |w.powerups| && |r.explosions| == |w.explosions|
    ensures r.draws >= w.draws
  {
    var pu := StepPowerups(w.powerups, dt, w.benchmarkMode, rand, w.draws, |w.powerups|);
    w.(powerups := pu.0, draws := pu.1, explosions := TickExplosions(w.explosions, dt, w.benchmarkMode))
  }

  /** Everything updateGame does before the spawn timers, in its order
      (src/game.c:82-369). */
  function MoveEntities(w: World, dt: real, rand: Oracle, sin: Wave): (r: World)
    ensures r == w.(player := r.player, bullets := r.bullets, enemyBullets := r.enemyBullets,
                    enemies := r.enemies, powerups := r.powerups, explosions := r.explosions, draws := r.draws)
    ensures r.draws >= w.draws
  {
    var w1 := MoveShots(w, dt, rand);
    MoveItems(StepEnemies(w1, dt, rand, sin, |w1.enemies|), dt, rand)
  }
}
