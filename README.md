# space_impact in Dafny

A verified model of the simulation core of *space_impact*, a side-scrolling
shooter written in C. The model covers:

- `src/game.c` over the types of `include/game.h`: the game state with its
  five fixed pools (player bullets, enemies, enemy bullets, powerups,
  explosions), the frame update `updateGame`, firing, the spawns, the four
  collision passes, the level change and the benchmark scene
  `prepareBenchmarkScene`;
- `src/rng.c`: the xoshiro128++ generator and its splitmix32 seeding;
- the parts of `src/main.c` that touch the game: the arrow-key flags that
  `key_callback` keeps, the direction `updatePlayerDirection` derives from
  them, the SPACE / ESCAPE / ENTER commands, and the density clamp in front
  of the benchmark scene.

## Layout

| file | module | contents |
|---|---|---|
| GameTypes.dfy | `GameTypes` | the entities of `include/game.h` as datatypes, the pool capacities, the enumerator values |
| Pools.dfy | `Pools` | the lowest-free-slot scan every spawn uses and the active count of a pool |
| World.dfy | `World` | the whole `GameState` as a value, the constants of `src/game.c`, C's `(int)` cast and `%`, the world invariant `WorldOk` |
| Spawning.dfy | `Spawning` | `fireBullet`, `spawnEnemy`, `spawnBoss`, `spawnPowerup`, `createExplosion` as functions on the world |
| Motion.dfy | `Motion` | the motion half of `updateGame`: player, bullets, enemies, powerups, explosions |
| Collisions.dfy | `Collisions` | `handleCollisions` and its four passes |
| Progression.dfy | `Progression` | the spawn timers, the scroll, `nextLevel` and the end of a frame |
| Benchmark.dfy | `Benchmark` | `prepareBenchmarkScene` |
| Step.dfy | `Step` | `initGame` and `updateGame` as world functions, and what any number of frames keeps |
| GameState.dfy | `GameState` | class `Game`: the C state held in place, five arrays for the pools, methods with the loops of `src/game.c`, each proved to leave `State()` equal to the world function of the old state |
| Rng.dfy | `Rng` | class `Xoshiro128` over a four-word array, and the step's inverse |
| Controls.dfy | `Controls` | class `Keyboard` with the four static key flags, `key_callback`, `updatePlayerDirection`, the benchmark start |

The C code changes a global `GameState` in place, so the model keeps two
views of it. Class `GameState.Game` holds the state as fields and arrays, and
its methods follow the C loops statement by statement. The pure `World`
datatype holds the same state as a value, and the spec functions in
`Spawning`, `Motion`, `Collisions`, `Progression`, `Benchmark` and `Step`
say what each C function does to it. Every method ensures
`State() == F(old(State()))` for its spec function `F`, and the properties
are proved as lemmas about the spec functions.

Outside inputs are parameters:

- `rand()` is an oracle `rand: nat -> nat`, and the state counts the calls
  made so far (`draws`), so call `k` returns `rand(k)`;
- `sinf` is an oracle `sin: real -> real`;
- floats are reals.

The C arithmetic that matters is written out. `World.Trunc` is the `(int)`
cast, which truncates toward zero. `World.CMod` is C's `%` on a `rand()`
result. The integer divisions `SCREEN_HEIGHT / 3`, `SCREEN_HEIGHT / 2`,
`BULLET_HEIGHT / 2` and `POWERUP_HEIGHT / 2` are kept as the integers they
produce. The generator works on `bv32`, so its additions, shifts and
rotations wrap as `uint32_t` does.

The benchmark skips the collision passes altogether, so it never loses a
life, and the game-over rule skips the benchmark too; its 9999 lives are
never read.

The first collision pass does not pay exactly once per death: the model
follows the code as written, and proves the corrected pass alongside it
(see Findings).

## Model

| member | source | states |
|---|---|---|
| GameTypes.DirectionOrdinal | include/game.h:12-22 | the enumerator values of the nine directions are below 9, and only DIR_NONE is 0 |
| GameTypes.EnemyTypeOrdinal | include/game.h:24-29 | the four enemy types have values below 4 |
| GameTypes.PowerupOrdinal | include/game.h:31-35 | the three powerup types have values below 3 |
| GameTypes.PowerupFromOrdinal | src/game.c:594 | the cast of a value 0, 1 or 2 to `PowerupType` names the type with that value |
| GameTypes.PowerupOrdinalRoundTrip | src/game.c:594 | casting a type's value back gives the type, so `rand() % 3` can draw every type and only valid ones |
| Pools.FirstFreeFrom | src/game.c:432-433 | the lowest-free-slot scan stops at the first inactive slot at or after its start, every slot it passes is active, and it returns the capacity when every slot is taken |
| Pools.FirstFreeUnique | src/game.c:432-433 | any index with those properties is the one the scan returns |
| Pools.CountTrueUpdate | src/game.c:475-545 | changing one slot's flag changes the active count by exactly that flag's change |
| Pools.CountTruePrefix | src/game.c:808-812 | a pool whose first n slots are exactly its active ones holds n active objects |
| Pools.CountTrueMonotone | src/game.c:475-545 | activating slots without deactivating any cannot lower the active count |
| Pools.FilledLowestFreeCount | src/game.c:475-545 | an allocation through the scan adds one active slot when one is free and none otherwise, so a pool never holds more than its capacity |
| Pools.CountTrueAll | src/game.c:432-433 | a pool is full exactly when every slot is active |
| Pools.FreeSlotIffNotFull | src/game.c:432-433 | the scan finds a slot exactly when the pool is not full |
| Pools.FilledLowestFreeSaturates | src/game.c:475-545 | an allocation adds an active slot exactly when the pool is not full |
| World.Clamp | src/game.c:119-129 | the clamp idiom gives a value inside the bounds, and leaves a value already inside them alone |
| World.Trunc | src/game.c:152-154 | the `(int)` cast truncates toward zero: within one below a non-negative value, within one above a negative one, and at least 1 from 1.0 up |
| World.CMod | src/game.c:152-154 | `rand() % m` lies in [0, abs(m)) |
| World.Abs | src/game.c:208-210 | `fabs` is non-negative and is the value or its negation |
| World.EffectiveBand | src/game.c:901-908 | the sanitised spawn band is in (0, 1] and keeps a band already there |
| Spawning.ShotY | src/game.c:434-440 | a new bullet's height is clamped into [2, 316], and a height already inside is kept |
| Spawning.PlayerShot | src/game.c:433-447 | a new player bullet is in flight at x, at BULLET_SPEED, with its height clamped into [2, 316] |
| Spawning.PlaceShots | src/game.c:432-472 | placing shots keeps the pool size and every bullet already in flight |
| Spawning.PlaceShotsFillsLowestFree | src/game.c:432-472 | a shot fills the lowest free bullet slot and, with double bullets, the next free slot after it 10 units higher; nothing else changes and the active count grows by the slots filled |
| Spawning.Fire | src/game.c:425-473 | fireBullet changes only the player and the bullets, and keeps the pool size |
| Spawning.FireEffect | src/game.c:425-473 | fireBullet does nothing while the cooldown runs; otherwise it resets the cooldown to the rapid or normal delay, even with a full pool, and only the bullets and the cooldown change |
| Spawning.FireKeepsWorldOk | src/game.c:425-473 | firing keeps the world invariant |
| Spawning.NewEnemy | src/game.c:477-542 | a spawned enemy is active, of the requested type and shape, has health and score from level 1 on, and makes three rand() calls if large and two otherwise |
| Spawning.SpawnEnemy | src/game.c:475-545 | spawnEnemy changes only the enemies and the draws, keeps the pool size and never takes back a draw |
| Spawning.SpawnEnemyFillsLowestFree | src/game.c:475-545 | spawnEnemy activates only the lowest free enemy slot, with the requested type and positive health, and leaves a full pool untouched |
| Spawning.SpawnEnemyKeepsWorldOk | src/game.c:475-545 | spawnEnemy keeps the world invariant |
| Spawning.NewBoss | src/game.c:549-569 | the boss is active with health 10 + 5 per level and score 100 per level |
| Spawning.SpawnBoss | src/game.c:547-572 | spawnBoss changes only the enemies and keeps the pool size |
| Spawning.SpawnBossFillsLowestFree | src/game.c:547-572 | spawnBoss activates only the lowest free slot with a boss scoring 100 per level, where spawnEnemy with ENEMY_BOSS would score 200 per level |
| Spawning.SpawnBossKeepsWorldOk | src/game.c:547-572 | spawnBoss keeps the world invariant |
| Spawning.SpawnPowerup | src/game.c:574-599 | spawnPowerup keeps every active powerup and the shape of every slot |
| Spawning.SpawnPowerupFillsLowestFree | src/game.c:574-599 | spawnPowerup activates only the lowest free slot at x with y clamped into [8, 304]; a player with 3 lives or more gets the type drawn first; one with fewer gets health on a second draw below 40 and the first-drawn type otherwise; a free slot costs one draw, or two with fewer than 3 lives, and a full pool none |
| Spawning.CreateExplosion | src/game.c:601-626 | createExplosion keeps the pool size |
| Spawning.CreateExplosionFillsLowestFree | src/game.c:601-626 | createExplosion activates only the lowest free slot with a 0.5 s countdown at a position clamped onto the screen, and leaves a full pool untouched |
| Motion.Displacement | src/game.c:82-113 | a frame in a direction moves left, right, up or down exactly when the direction has that component; straight moves go PLAYER_SPEED·dt along one axis, diagonals the diagonal factor of that along both |
| Motion.MovePlayer | src/game.c:82-129 | the move changes only the position, ends inside the screen, and is not clamped when the unclamped move stays inside |
| Motion.TickTimers | src/game.c:131-141 | the cooldown and powerup timers run down while positive; the powers end exactly when the powerup timer runs out in this frame; a power never outlives its timer |
| Motion.TickTimersN | src/game.c:131-141 | over n frames the ticks change only the timers and the powers, never switch a power on, and keep the timed-power rule |
| Motion.PowerupWearsOff | src/game.c:131-141 | once frames of positive length add up to the timer, both powers are off |
| Motion.PowerupStaysOff | src/game.c:131-141 | powers that are off stay off under the timer ticks |
| Motion.ReentryShotY | src/game.c:152-154 | the height a benchmark bullet re-enters at lies in [2, 316] |
| Motion.StepShot | src/game.c:143-194 | a bullet's frame changes only its position and flag; in a normal game an active bullet stays near the screen or is dropped and draws nothing; in the benchmark it is never dropped and re-enters at a height in [2, 316] |
| Motion.StepShots | src/game.c:143-194 | the bullet loop changes each slot only in position and flag, leaves inactive bullets alone, never activates one, and keeps every active one near the screen in a normal game |
| Motion.StepShotsCount | src/game.c:143-194 | a bullet loop keeps every flag in the benchmark and never raises the active count |
| Motion.EnemyShot | src/game.c:218-237 | an enemy's shot fills the lowest free enemy-bullet slot, if any, with a bullet moving left at 200 from y clamped into [2, 316]; the result says whether a slot was free |
| Motion.BossVolley | src/game.c:255-275 | the volley keeps every active enemy bullet |
| Motion.BossVolleyCount | src/game.c:255-275 | the volley adds three enemy bullets, or as many as there are free slots |
| Motion.Manoeuvre | src/game.c:200-279 | the manoeuvre changes only y, speed, phase and cooldown and keeps the speed's size; only the medium enemy draws and turns; small and medium enemies never fire; a large one fires into the lowest free slot once its cooldown runs out and restarts the 2-second cooldown only when it found one, otherwise it keeps counting down; the boss stays on the screen vertically, fires its volley and restarts its 1-second cooldown exactly when the cooldown runs out, and otherwise counts down without firing |
| Motion.ClampEnemyY | src/game.c:281-291 | the vertical clamp puts the enemy inside the screen, turns a medium enemy away from the edge it hit, and leaves an enemy already inside alone |
| Motion.HoldBoss | src/game.c:293-301 | a normal game keeps the boss inside the right half of the screen and changes no other enemy |
| Motion.Recycle | src/game.c:303-326 | a normal game retires exactly the non-boss enemies fully past the left edge; the benchmark sends an enemy a quarter past it back inside the spawn band at a height on the screen and a phase in [0, 6.28), with three or four draws |
| Motion.Advance | src/game.c:198 | the drift to the left changes only x |
| Motion.StepEnemyAt | src/game.c:197-327 | an enemy's frame changes only its own slot, the enemy bullets and the draws; keeps every active enemy bullet; keeps an enemy on the screen vertically and the boss in the right half in a normal game |
| Motion.StepEnemyAtActive | src/game.c:197-327 | an active enemy's slot takes the outcome of its manoeuvre and clamps |
| Motion.Settled | src/game.c:281-326 | the clamps and the recycling change no enemy bullet and draw no fewer numbers |
| Motion.StepEnemies | src/game.c:196-328 | the enemy loop names only enemies, enemy bullets and draws, and keeps the slots it has not reached and every active enemy bullet |
| Motion.StepEnemiesReached | src/game.c:196-328 | each slot the loop has passed went through its frame |
| Motion.StepEnemiesCount | src/game.c:196-328 | the enemy loop never removes an enemy bullet, keeps every enemy flag in the benchmark and never raises the enemy count |
| Motion.StepPowerup | src/game.c:331-353 | a powerup's frame changes only position, flag and type; keeps it on the screen vertically; drops it past the left edge in a normal game and brings it back in the benchmark with two draws |
| Motion.StepPowerups | src/game.c:330-354 | the powerup loop never activates a slot, keeps every flag in the benchmark and keeps every active powerup on the screen vertically |
| Motion.TickExplosion | src/game.c:356-369 | an explosion's life runs down by dt; when spent it ends in a normal game and restarts from its lifespan in the benchmark |
| Motion.TickExplosions | src/game.c:356-369 | every slot keeps all but its life and flag; the benchmark keeps every flag; in a normal game an explosion stays exactly while it was active and has life left after dt |
| Motion.MoveEntities | src/game.c:82-369 | the motion phase changes only the player, the pools and the draws |
| Collisions.OverlapImpliesTouch | src/game.c:665-668 | the box-overlap test is symmetric, implies the edge-inclusive touch test of the first pass, and boxes meeting along an edge touch without overlapping |
| Collisions.ActiveIndices | src/game.c:637-644 | the active-enemy list holds exactly the active slots, in increasing order |
| Collisions.FirstHit | src/game.c:656-693 | the scan returns the first list entry the bullet can hit, or reports that there is none |
| Collisions.Kill | src/game.c:676-690 | a death pays the enemy's score, removes it, marks the level's boss as defeated for the boss, keeps the bullets and every active powerup |
| Collisions.Drop | src/game.c:682-687 | a dying enemy's drop keeps the pool size and every active powerup; any enemy but the boss costs a draw, and a draw of 10 or more leaves the pool alone |
| Collisions.KillSteps | src/game.c:676-690 | a death is its explosion followed by its drop |
| Collisions.ResolveHit | src/game.c:671-692 | a hit spends the bullet and takes one health; at zero health the enemy dies and pays its score |
| Collisions.ShootAt | src/game.c:647-694 | a bullet's turn only spends bullets, lowers health and kills enemies, and any boss it kills marks the level's boss as defeated |
| Collisions.ShootEnemiesN | src/game.c:646-694 | the same over the first n bullets |
| Collisions.KillScoreNone | src/game.c:677 | when nothing died the kill score is 0 |
| Collisions.KillScoreNonNegative | src/game.c:677 | deaths never take points when no enemy has a negative score |
| Collisions.KillScoreUpdate | src/game.c:677 | changing one enemy changes the kill score by exactly that enemy's part |
| Collisions.ShootEnemiesNScore | src/game.c:646-694 | with the re-checked scan, the first n bullets pay for each kill exactly once |
| Collisions.ResolveHitScore | src/game.c:671-692 | a hit on a live enemy changes the score by what its death adds to the kill score |
| Collisions.FightOf | src/game.c:637-694 | the first pass starts from the player's score, the level's boss flag and the draws |
| Collisions.ShootEnemies | src/game.c:637-694 | the corrected first pass keeps every pool size, never takes back a draw and never clears the boss flag |
| Collisions.ShootEnemiesAsWritten | src/game.c:637-694 | the first pass as written keeps every pool size, never takes back a draw and never clears the boss flag |
| Collisions.ShootEnemiesScoresEachKillOnce | src/game.c:637-694 | with the re-checked scan each enemy killed this frame pays exactly once, only enemies alive at the start die, no bullet comes back, and killing the boss marks the level's boss as defeated |
| Collisions.PaidHits | src/game.c:671-690 | the hits that left an enemy at zero health or below: none while it stays above zero, at least one once a hit takes it there |
| Collisions.PaidHitsStep | src/game.c:671-677 | one more hit adds one such hit exactly when it leaves the enemy at zero or below |
| Collisions.StalePayNone | src/game.c:677 | no hit, nothing paid |
| Collisions.StalePayUpdate | src/game.c:677 | changing one enemy changes the pay by exactly that enemy's part |
| Collisions.StaleHitPays | src/game.c:671-692 | a hit raises the pay by the enemy's score when it leaves the enemy at zero or below, dead already or not, and by 0 otherwise |
| Collisions.StaleResolvePays | src/game.c:671-692 | the score a hit adds is what it adds to the pay |
| Collisions.ShootEnemiesNStalePay | src/game.c:646-694 | as written, the first n bullets raise the score by exactly StalePay: each enemy's score once per hit that leaves it at zero health or below, so a dead enemy pays again for every later bullet that touches it |
| Collisions.StalePayCoversKills | src/game.c:656-693 | with no negative score, that pay covers every death at least once |
| Collisions.FirstHitIgnoresHealth | src/game.c:656-668 | the scan as written depends on positions only, not on health or on the active flag |
| Collisions.ShootEnemiesNSpends | src/game.c:646-694 | as written, each of the first n bullets in flight is spent exactly when it touches a listed enemy, dead or alive |
| Collisions.FoundIffTouchesActive | src/game.c:637-668 | the scan of the active list finds an entry exactly when the bullet touches an enemy active at the start of the pass |
| Collisions.AsWrittenSpends | src/game.c:637-694 | the pass as written spends a bullet in flight exactly when it touches an enemy active at the start of the pass |
| Collisions.AsWrittenScore | src/game.c:637-694 | the pass as written raises the score by exactly StalePay, which is at least the worth of the enemies shot dead |
| Collisions.ShootEnemiesAsWrittenEffects | src/game.c:637-694 | the pass as written on all inputs: that pay, those spent bullets, only enemies active at the start die, and the boss's death raises the boss flag |
| Collisions.StaleListDoubleScores | src/game.c:656-693 | the pass as written pays 60 for one small enemy worth 30 when two bullets touch it |
| Collisions.FirstKill | src/game.c:671-692 | in that sample the first bullet kills the enemy |
| Collisions.FirstShotKills | src/game.c:637-694 | in that sample the list is [0] and the first bullet's turn ends in that kill |
| Collisions.SecondShotPaysAgain | src/game.c:656-693 | in that sample the second bullet still hits the dead enemy and the score reaches 60 |
| Collisions.PlayerBox | src/game.c:630-635 | the player's box sits at the player's position and is as wide and as tall as the player |
| Collisions.PlayerHit | src/game.c:704-711 | a hit on the player costs a life and ends any timed power |
| Collisions.ShotsAtPlayerN | src/game.c:696-714 | every enemy bullet inside the player's box is spent, and the lives lost are exactly the bullets spent; powers end on a hit |
| Collisions.RamsN | src/game.c:716-740 | the lives lost are exactly the number of active ships inside the player's box, the boss included; every such non-boss ship is destroyed; x becomes 50 exactly when an active boss was inside the box, and otherwise stays |
| Collisions.PickupsN | src/game.c:742-769 | every powerup touched is used up; a power is on afterwards exactly when it was on or one of its powerups was touched; the power timer restarts at 10 exactly when a rapid-fire or double-bullet powerup was touched, and is kept otherwise; lives rise by the number of health powerups touched, capped at three, and lives already at three or more stay |
| Collisions.ShootPhase | src/game.c:637-694 | the first pass, as written, changes only the score, the pools, the boss-defeated flag and the draws |
| Collisions.ShotsPhase | src/game.c:696-714 | the second pass changes only the player, the enemy bullets and the explosions |
| Collisions.RamsPhase | src/game.c:716-740 | the third pass changes only the player, the enemies and the explosions |
| Collisions.PickupsPhase | src/game.c:742-769 | the fourth pass changes only the player and the powerups |
| Collisions.PlayerPhase | src/game.c:696-769 | the three passes against the player change only the player and the pools other than the player's bullets |
| Collisions.Collide | src/game.c:628-770 | handleCollisions keeps every pool's size, every level field but the boss-defeated flag, and never takes back a draw |
| Collisions.CollideEffects | src/game.c:628-770 | handleCollisions as written keeps the world invariant, the player on screen and the timed-power rule; lives go no higher than three unless they already were; the score rises by exactly StalePay, at least the worth of the enemies shot dead; a player bullet survives exactly when it was in flight and touched no enemy active at the start; only enemies active at the start are gone; shooting the boss dead marks it defeated |
| Collisions.CollideKeepsWorldOk | src/game.c:628-770 | handleCollisions as written keeps the world invariant |
| Progression.SpawnType | src/game.c:379-386 | the regular spawn's type from `rand() % 100`: small below 60, medium from 60 to 84, large from 85, never a boss |
| Progression.EnemyTimer | src/game.c:371-392 | the enemy timer changes only the enemies, the timer, the level's boss-spawned flag and the draws |
| Progression.BossArrival | src/game.c:374-376 | the boss comes and the level records it |
| Progression.RegularArrival | src/game.c:377-390 | a regular enemy comes after a draw and the timer restarts at the level's spawn rate |
| Progression.EnemyTimerBoss | src/game.c:371-392 | once the boss has come no enemy spawns; the boss flag goes up exactly when the timer runs out with ten points per level |
| Progression.EnemyTimerRegularSpawn | src/game.c:377-390 | a regular spawn fills only the lowest free slot, never with a boss, and restarts the timer |
| Progression.EnemyTimerKeepsWorldOk | src/game.c:371-392 | the enemy timer keeps the world invariant |
| Progression.PowerupTimer | src/game.c:394-406 | the powerup timer keeps every active powerup and restarts at 15 s when it runs out |
| Progression.PowerupTimerKeepsWorldOk | src/game.c:394-406 | the powerup timer keeps the world invariant |
| Progression.SpawnTimers | src/game.c:371-406 | both timers change only the enemies, the powerups, the timers, the boss flag and the draws, and the benchmark runs neither |
| Progression.TimersKeepWorldOk | src/game.c:371-406 | both timers keep the world invariant |
| Progression.Scroll | src/game.c:408-410 | the scroll changes only the three layer offsets |
| Progression.NextLevel | src/game.c:772-792 | nextLevel changes only the level, the enemies, the enemy bullets and both timers |
| Progression.NextLevelEffects | src/game.c:772-792 | the next level has number + 1, no boss, no enemies and no enemy bullets, a scroll 5 faster, a spawn rate of 60% of the old one floored at 1 s, and timers of 2 s and 7.5 s |
| Progression.Floor1 | src/game.c:777-780 | the floor gives at least 1 s and at least the rate, and keeps a rate of 1 s or more |
| Progression.NextLevelKeepsWorldOk | src/game.c:772-792 | a level change keeps the world invariant |
| Progression.SpawnRateAfterLevels | src/game.c:772-792 | after n ≥ 1 level changes the spawn rate is the starting one times 0.6 n times over, floored at 1 s, and the level number has grown by n |
| Progression.EndFrame | src/game.c:416-422 | a defeated spawned boss moves the game to the next level, and outside the benchmark a player out of lives ends the game |
| Progression.EndFrameKeepsWorldOk | src/game.c:416-422 | the end of a frame keeps the world invariant |
| Benchmark.ClampDensity | src/game.c:795-796 | the density is clamped into [0, 100] and kept when already there |
| Benchmark.Target | src/game.c:808-812 | the number of slots filled is capacity · density / 100 rounded down |
| Benchmark.BossTarget | src/game.c:840-845 | the number of bosses is ten, or all enemies if fewer, and at least one if any enemy is placed |
| Benchmark.SeedShot | src/game.c:814-838 | a benchmark player bullet flies left at 300 from anywhere across the screen, an enemy bullet at 200 from the right half, both at a height in [2, 317] |
| Benchmark.SeedShots | src/game.c:814-838 | a bullet loop uses two draws per seeded slot |
| Benchmark.SeedShotsShape | src/game.c:814-838 | a bullet loop seeds the slots below the target, each from its own draws, and clears the rest |
| Benchmark.SeedShotsNext | src/game.c:814-838 | one more turn of a bullet loop |
| Benchmark.SeedShotsCount | src/game.c:814-838 | a bullet pool ends with exactly its target of active bullets |
| Benchmark.SeedBody | src/game.c:862-898 | a placed enemy is active and of its type; a boss has health 100 and score 1000 |
| Benchmark.BossBandLeft | src/game.c:901-908 | the boss band starts between 0 and 0.7 of the screen |
| Benchmark.BossesSpreadAcrossBand | src/game.c:901-918 | bosses stand left to right inside the band, each in front of the next |
| Benchmark.PlaceX | src/game.c:901-923 | a non-boss stands inside the spawn band, no further right than half its width from the edge |
| Benchmark.PlaceY | src/game.c:924-926 | a placed enemy stands on the screen vertically |
| Benchmark.PlaceBody | src/game.c:862-926 | a placed enemy is active, of its type, on the screen vertically, after three draws |
| Benchmark.SeedEnemy | src/game.c:848-928 | the first slots hold bosses and every other slot draws its type first, so exactly the slots below the boss count hold bosses |
| Benchmark.SeedEnemies | src/game.c:840-929 | the enemy loop places every slot below the target as its index asks |
| Benchmark.SeedEnemiesShape | src/game.c:840-929 | the enemy loop places an enemy in each slot below the target and clears the rest |
| Benchmark.SeedEnemiesNext | src/game.c:840-929 | one more turn of the enemy loop |
| Benchmark.SeedEnemiesCount | src/game.c:840-929 | the enemy pool ends with exactly its target of active enemies |
| Benchmark.EnemiesSeededOk | src/game.c:840-929 | placing the enemies keeps the world invariant |
| Benchmark.SeedPowerup | src/game.c:932-939 | a benchmark powerup is in the right third of the screen at a height in [8, 311] |
| Benchmark.SeedPowerups | src/game.c:931-943 | the powerup loop uses three draws per seeded slot |
| Benchmark.SeedPowerupsShape | src/game.c:931-943 | the powerup loop seeds the slots below the target and clears the rest |
| Benchmark.SeedPowerupsNext | src/game.c:931-943 | one more turn of the powerup loop |
| Benchmark.SeedPowerupsCount | src/game.c:931-943 | the powerup pool ends with exactly its target of active powerups |
| Benchmark.PowerupsSeededOk | src/game.c:931-943 | seeding the powerups keeps the world invariant |
| Benchmark.SeedExplosion | src/game.c:946-953 | a benchmark explosion is 24 wide and 0.6 s long, part way through its life |
| Benchmark.SeedExplosions | src/game.c:945-957 | the explosion loop uses three draws per seeded slot |
| Benchmark.SeedExplosionsShape | src/game.c:945-957 | the explosion loop seeds the slots below the target and clears the rest |
| Benchmark.SeedExplosionsNext | src/game.c:945-957 | one more turn of the explosion loop |
| Benchmark.SeedExplosionsCount | src/game.c:945-957 | the explosion pool ends with exactly its target of active explosions |
| Benchmark.BulletsSeeded | src/game.c:814-825 | the player-bullet loop changes only those bullets and the draws |
| Benchmark.EnemyBulletsSeeded | src/game.c:827-838 | the enemy-bullet loop changes only those bullets and the draws |
| Benchmark.EnemiesSeeded | src/game.c:840-929 | the enemy loop changes only the enemies and the draws |
| Benchmark.PowerupsSeeded | src/game.c:931-943 | the powerup loop changes only the powerups and the draws |
| Benchmark.ExplosionsSeeded | src/game.c:945-957 | the explosion loop changes only the explosions and the draws |
| Benchmark.PrepareBenchmarkOk | src/game.c:794-958 | the scene keeps the world invariant, keeps the level number and score, and carries the benchmark settings |
| Benchmark.PrepareBenchmarkScene | src/game.c:794-958 | every pool holds exactly its target of active objects, and the bosses (up to ten) fill the first enemy slots |
| Benchmark.PrepareBenchmark | src/game.c:794-958 | the scene switches the benchmark on with 9999 lives, keeps the game-over and pause flags, the level number, the score and every pool size |
| Step.InitOk | src/game.c:24-73 | a new game is valid, with the player on screen without powers, three lives, no score, at level 1, running |
| Step.Init | src/game.c:24-73 | a new game has the player at x = 50, mid-screen, with three lives and no score, level 1 scrolling at 50 with a 3-second spawn rate, both spawn timers at zero, normal play, the same pool sizes and the draws so far |
| Step.InitEmpty | src/game.c:49-67 | a new game has every pool empty |
| Step.InitForgetsProgress | src/game.c:24-73 | a new game does not depend on the game before it beyond the pools' contents |
| Step.MoveShotsKeeps | src/game.c:82-194 | the player and bullet loops keep the invariant, the player on screen, score and lives; in the benchmark no bullet appears or goes |
| Step.StepEnemiesKeeps | src/game.c:196-328 | the enemy loop keeps the invariant; in the benchmark no enemy appears or goes; no enemy bullet goes |
| Step.MoveItemsKeeps | src/game.c:330-369 | the powerup and explosion loops keep the invariant; in the benchmark neither pool changes population |
| Step.MoveEntitiesKeeps | src/game.c:82-369 | the motion phase keeps the invariant, the player on screen, the timed-power rule, the score and the lives |
| Step.MoveEntitiesBenchmark | src/game.c:82-369 | in the benchmark the motion phase keeps the population of every pool but the enemy bullets, which only grow |
| Step.UpdateHalted | src/game.c:76-80 | a frame of a game that is over or paused changes nothing |
| Step.Update | src/game.c:75-423 | a frame never takes back a draw and never switches the benchmark on or off |
| Step.UpdateKeeps | src/game.c:75-423 | a running frame keeps the invariant, the player on screen and the timed-power rule; the score never drops; no defeated boss is left pending; the game is over exactly when the player has no lives outside the benchmark |
| Step.UpdateFrame | src/game.c:75-423 | any frame keeps the invariant, the timed-power rule and the score's growth |
| Step.UpdateBenchmarkStable | src/game.c:75-423 | a benchmark frame keeps its load and its level |
| Step.StepsKeep | src/game.c:75-423 | over any number of frames the world stays valid, the timed-power rule holds and the score never drops |
| Step.StepsGameOverFinal | src/game.c:76-80 | a game once over stays over |
| Step.StepsBenchmarkStable | src/game.c:75-423 | over any number of benchmark frames the load is kept |
| GameState.Blank | src/main.c:18 | the zero-initialised global state has pools of the declared sizes |
| GameState.Game.constructor | src/main.c:18 | the state starts as the zero-initialised global |
| GameState.Game.Rand | src/game.c:152 | a rand() call returns the next oracle value and counts the call |
| GameState.Game.ClearAllPools | src/game.c:49-67 | the five clearing loops switch every slot off |
| GameState.Game.ClearBulletsPool | src/game.c:49-59 | each of the two bullet-clearing loops leaves every slot as it was with its flag off |
| GameState.Game.ClearEnemiesPool | src/game.c:53-55 | the enemy-clearing loop leaves every slot as it was with its flag off |
| GameState.Game.ClearPowerupsPool | src/game.c:61-63 | the powerup-clearing loop leaves every slot as it was with its flag off |
| GameState.Game.ClearExplosionsPool | src/game.c:65-67 | the explosion-clearing loop leaves every slot as it was with its flag off |
| GameState.Game.FreeBullet | src/game.c:432-433 | the scan returns the lowest inactive bullet slot at or after its start, or the pool size when every such slot is busy; it serves the player's shots (also 450-451) and the enemy shots (218-219, 256-257) |
| GameState.Game.FreeEnemy | src/game.c:476-477 | the scan returns the lowest inactive enemy slot, or the pool size when all are busy; spawnEnemy and spawnBoss (548-549) use it |
| GameState.Game.FreePowerup | src/game.c:575-576 | the scan returns the lowest inactive powerup slot, or the pool size when all are busy |
| GameState.Game.FreeExplosion | src/game.c:602-603 | the scan returns the lowest inactive explosion slot, or the pool size when all are busy |
| GameState.Game.InitGame | src/game.c:24-73 | initGame leaves the state `Step.Init` gives |
| GameState.Game.PlaceShotsPool | src/game.c:432-472 | the slot loops of fireBullet place the shots as `Spawning.PlaceShots` |
| GameState.Game.FireBullet | src/game.c:425-473 | fireBullet leaves the state `Spawning.Fire` gives |
| GameState.Game.FillEnemy | src/game.c:477-542 | the slot written by spawnEnemy and the rand() calls made |
| GameState.Game.SpawnEnemy | src/game.c:475-545 | spawnEnemy leaves the state `Spawning.SpawnEnemy` gives |
| GameState.Game.SpawnBoss | src/game.c:547-572 | spawnBoss leaves the state `Spawning.SpawnBoss` gives |
| GameState.Game.SpawnPowerup | src/game.c:574-599 | spawnPowerup leaves the pool and draws `Spawning.SpawnPowerup` gives |
| GameState.Game.CreateExplosion | src/game.c:601-626 | createExplosion leaves the pool `Spawning.CreateExplosion` gives |
| GameState.Game.NextLevel | src/game.c:772-792 | nextLevel leaves the state `Progression.NextLevel` gives |
| GameState.Game.Steer | src/game.c:82-113 | the player moves by its direction's displacement |
| GameState.Game.MovePlayer | src/game.c:82-129 | the player's move and clamp as `Motion.MovePlayer` |
| GameState.Game.TickPlayerTimers | src/game.c:131-141 | the timer ticks as `Motion.TickTimers` |
| GameState.Game.ReentryY | src/game.c:152-154 | the re-entry height from one rand() call |
| GameState.Game.MoveBullet | src/game.c:144-170 | one player bullet's frame as `Motion.StepShot` |
| GameState.Game.MoveBullets | src/game.c:143-171 | the player-bullet loop as `Motion.StepShots` |
| GameState.Game.MoveEnemyBullet | src/game.c:174-193 | one enemy bullet's frame as `Motion.StepShot` |
| GameState.Game.MoveEnemyBullets | src/game.c:173-194 | the enemy-bullet loop as `Motion.StepShots` |
| GameState.Game.EnemyFire | src/game.c:218-237 | a large enemy's shot as `Motion.EnemyShot` |
| GameState.Game.BossFire | src/game.c:255-275 | the boss's volley as `Motion.BossVolley` |
| GameState.Game.Manoeuvre | src/game.c:200-279 | the type's manoeuvre as `Motion.Manoeuvre` |
| GameState.Game.Wander | src/game.c:205-214 | the medium enemy's drift as `Motion.Manoeuvre` |
| GameState.Game.BossPattern | src/game.c:240-278 | the boss's sweep and volley as `Motion.Manoeuvre` |
| GameState.Game.KeepOnScreen | src/game.c:281-301 | the clamps as `Motion.ClampEnemyY` and `Motion.HoldBoss` |
| GameState.Game.LeaveScreen | src/game.c:303-326 | leaving the screen as `Motion.Recycle` |
| GameState.Game.Reenter | src/game.c:308-325 | the benchmark's wrap-around as `Motion.Recycle` |
| GameState.Game.StepEnemy | src/game.c:196-328 | an enemy's frame as the manoeuvre of its drift, then the clamps and recycling |
| GameState.Game.Settle | src/game.c:281-326 | the clamps and recycling as `Motion.Settled` |
| GameState.Game.MoveEnemies | src/game.c:196-328 | the enemy loop as `Motion.StepEnemies` |
| GameState.Game.StepSlot | src/game.c:196-328 | one slot of the enemy loop as `Motion.StepEnemyAt` |
| GameState.Game.MovePowerup | src/game.c:331-353 | one powerup's frame as `Motion.StepPowerup` |
| GameState.Game.MovePowerups | src/game.c:330-354 | the powerup loop as `Motion.StepPowerups` |
| GameState.Game.TickExplosionsPass | src/game.c:356-369 | the explosion loop as `Motion.TickExplosions` |
| GameState.Game.MoveShotsPhase | src/game.c:82-194 | the player and both bullet loops, draws continuing from one loop to the next |
| GameState.Game.MoveItemsPhase | src/game.c:330-369 | the powerup and explosion loops as `Motion.MoveItems` |
| GameState.Game.EnemyTimerStep | src/game.c:371-392 | the enemy timer as `Progression.EnemyTimer` |
| GameState.Game.BossArrives | src/game.c:374-376 | the boss's arrival as `Progression.BossArrival` |
| GameState.Game.RegularArrives | src/game.c:377-390 | a regular arrival as `Progression.RegularArrival` |
| GameState.Game.PowerupTimerStep | src/game.c:394-406 | the powerup timer as `Progression.PowerupTimer` |
| GameState.Game.OfferPowerup | src/game.c:396-405 | a timed powerup at the right edge at a height from one draw |
| GameState.Game.ScrollLayers | src/game.c:408-410 | the scroll as `Progression.Scroll` |
| GameState.Game.FightNow | src/game.c:637-694 | the fight view carries the score, the boss flag and the draws |
| GameState.Game.ActiveList | src/game.c:637-644 | the list built is `Collisions.ActiveIndices` of the enemies |
| GameState.Game.FindTarget | src/game.c:656-693 | the scan for a bullet as `Collisions.FirstHit` as written: the first listed entry that touches the bullet, whether or not it died earlier in the pass |
| GameState.Game.KillEnemy | src/game.c:676-690 | a death as `Collisions.Kill` |
| GameState.Game.DropFrom | src/game.c:682-687 | the drop as `Collisions.Drop` |
| GameState.Game.Hit | src/game.c:671-692 | a hit as `Collisions.ResolveHit` |
| GameState.Game.ShootBullet | src/game.c:647-694 | a bullet's turn as `Collisions.ShootAt` |
| GameState.Game.ShootEnemiesPass | src/game.c:646-694 | the bullet loop as `Collisions.ShootEnemiesN` |
| GameState.Game.ShootAll | src/game.c:637-694 | the first pass as `Collisions.ShootEnemiesAsWritten` |
| GameState.Game.FirstPass | src/game.c:637-694 | the first pass as `Collisions.ShootPhase` |
| GameState.Game.HurtPlayer | src/game.c:704-711 | a hit on the player as `Collisions.PlayerHit` |
| GameState.Game.ShotsAtPlayerPass | src/game.c:696-714 | the second pass as `Collisions.ShotsPhase` |
| GameState.Game.RamsPass | src/game.c:716-740 | the third pass as `Collisions.RamsPhase` |
| GameState.Game.RamsLoop | src/game.c:716-740 | the loop of the third pass as `Collisions.RamsN` |
| GameState.Game.PickupsPass | src/game.c:742-769 | the fourth pass as `Collisions.PickupsPhase` |
| GameState.Game.PlayerPasses | src/game.c:696-769 | the three passes against the player as `Collisions.PlayerPhase` |
| GameState.Game.HandleCollisions | src/game.c:628-770 | handleCollisions, as written, as `Collisions.Collide` |
| GameState.Game.MoveShotsWorld | src/game.c:82-194 | the player and both bullet loops as `Motion.MoveShots` |
| GameState.Game.MoveEnemiesWorld | src/game.c:196-328 | the enemy loop on the whole state |
| GameState.Game.MoveItemsWorld | src/game.c:330-369 | the powerup and explosion loops on the whole state |
| GameState.Game.MoveEntitiesWorld | src/game.c:82-369 | the motion phase as `Motion.MoveEntities` |
| GameState.Game.SpawnTimersWorld | src/game.c:371-406 | both timers as `Progression.SpawnTimers` |
| GameState.Game.PowerupTimerWorld | src/game.c:394-406 | the powerup timer on the whole state |
| GameState.Game.ScrollWorld | src/game.c:408-410 | the scroll on the whole state |
| GameState.Game.EndOfFrame | src/game.c:416-422 | the end of the frame as `Progression.EndFrame` |
| GameState.Game.UpdateGame | src/game.c:75-423 | updateGame leaves the state `Step.Update` gives |
| GameState.Game.SeedShotIn | src/game.c:815-821 | one seeded bullet as `Benchmark.SeedShot`, with two draws |
| GameState.Game.SeedShotsPass | src/game.c:814-838 | a bullet loop as `Benchmark.SeedShots` |
| GameState.Game.SeedShotSlot | src/game.c:814-838 | one turn of a bullet loop |
| GameState.Game.PlaceEnemy | src/game.c:862-926 | a placed enemy as `Benchmark.PlaceBody` |
| GameState.Game.PlaceSlot | src/game.c:848-928 | a placed slot as `Benchmark.SeedEnemy`, counting the bosses placed |
| GameState.Game.SeedEnemiesPass | src/game.c:840-929 | the enemy loop as `Benchmark.SeedEnemies` |
| GameState.Game.SeedEnemySlot | src/game.c:840-929 | one turn of the enemy loop, counting the enemies and bosses placed |
| GameState.Game.SeedPowerupIn | src/game.c:932-939 | one seeded powerup as `Benchmark.SeedPowerup`, with three draws |
| GameState.Game.SeedPowerupsPass | src/game.c:931-943 | the powerup loop as `Benchmark.SeedPowerups` |
| GameState.Game.SeedPowerupSlot | src/game.c:931-943 | one turn of the powerup loop |
| GameState.Game.SeedExplosionIn | src/game.c:946-953 | one seeded explosion as `Benchmark.SeedExplosion`, with three draws |
| GameState.Game.SeedExplosionsPass | src/game.c:945-957 | the explosion loop as `Benchmark.SeedExplosions` |
| GameState.Game.SeedExplosionSlot | src/game.c:945-957 | one turn of the explosion loop |
| GameState.Game.BenchmarkSetup | src/game.c:795-806 | the benchmark settings as `Benchmark.BenchmarkSettings` |
| GameState.Game.SeedBulletsWorld | src/game.c:814-825 | the player-bullet loop on the whole state |
| GameState.Game.SeedEnemyBulletsWorld | src/game.c:827-838 | the enemy-bullet loop on the whole state |
| GameState.Game.SeedEnemiesWorld | src/game.c:840-929 | the enemy loop on the whole state |
| GameState.Game.SeedPowerupsWorld | src/game.c:931-943 | the powerup loop on the whole state |
| GameState.Game.SeedExplosionsWorld | src/game.c:945-957 | the explosion loop on the whole state |
| GameState.Game.PrepareBenchmarkScene | src/game.c:794-958 | prepareBenchmarkScene leaves the state `Benchmark.PrepareBenchmark` gives |
| Rng.Rotl11Inverse | src/rng.c:5-7 | rotating left by 11 and then by 21 gives the word back, either way round |
| Rng.Fmix32 | src/rng.c:11-13 | the splitmix32 finaliser maps 0, and only 0, to 0 |
| Rng.Output | src/rng.c:29 | rng_u32's result is rotl(w3, 7) when w0 is 0, so the all-zero state outputs 0 |
| Rng.SeededState | src/rng.c:17-26 | rng_seed fills all four words |
| Rng.SeedZeroAlias | src/rng.c:18-20 | seeding with 0 is seeding with 0xA3C59AC3 |
| Rng.SeededNonZero | src/rng.c:9-26 | no seed leaves the all-zero state |
| Rng.NextState | src/rng.c:31-39 | the step gives four words |
| Rng.PreviousState | src/rng.c:31-39 | the inverse step gives four words |
| Rng.UnXorShl9Inverse | src/rng.c:31-37 | undoing `x ^ (x << 9)` and doing it are inverse to each other |
| Rng.NextStateRoundTrip | src/rng.c:31-39 | the inverse step undoes the step |
| Rng.PreviousStateRoundTrip | src/rng.c:31-39 | the step undoes the inverse step, so the step is a bijection on states |
| Rng.NextStateInjective | src/rng.c:31-39 | different states step to different states |
| Rng.ZeroOnlyFixedPoint | src/rng.c:29-39 | the all-zero state steps to itself and outputs 0, and no other state steps to it |
| Rng.Xoshiro128.constructor | src/rng.c:3 | the state starts all zero |
| Rng.Xoshiro128.Seed | src/rng.c:17-26 | rng_seed leaves the state `SeededState` gives |
| Rng.Xoshiro128.Next | src/rng.c:28-42 | rng_u32 returns the output of the old state and leaves the state `NextState` gives |
| Controls.Steer | src/main.c:26-46 | the direction has an up part exactly when up is held, a down part exactly when down is held without up, and likewise left and right |
| Controls.SteerPriorities | src/main.c:26-46 | up with left is up-left, up-right is tested before down, up beats down and left beats right, and no move comes exactly from no key |
| Controls.SteerMovesWithKeys | src/main.c:26-46 | a frame moves the player up exactly when up is held, down when down is held without up, and likewise left and right |
| Controls.KeysAfter | src/main.c:49-91 | press and repeat of an arrow key set its flag, release clears it, other keys leave the flags alone |
| Controls.KeyEventsSettle | src/main.c:49-91 | a repeat after a press changes nothing, and a release leaves the key up whatever came before |
| Controls.ArrowsOnlySteer | src/main.c:48-93 | an event always leaves the direction the flags ask for; arrow keys, other keys and releases change nothing else |
| Controls.GameOverKeys | src/main.c:67-73 | ESCAPE ends the game; ENTER only steers while playing, and on the game-over screen starts a new game already moving as the held keys ask |
| Controls.Command | src/main.c:62-73 | a release, an arrow key or another key runs no command; ESCAPE ends the game; no command draws a number or resizes a pool |
| Controls.OnKey | src/main.c:48-93 | an event leaves the direction the new flags ask for, draws nothing, and ends the game exactly when its command does |
| Controls.SpaceFires | src/main.c:64-66 | SPACE fires as fireBullet does |
| Controls.Keyboard.constructor | src/main.c:21-24 | all four flags start false |
| Controls.Keyboard.UpdatePlayerDirection | src/main.c:26-46 | the priority chain sets exactly the direction `Controls.Steer` gives and nothing else |
| Controls.Keyboard.KeyCallback | src/main.c:48-93 | key_callback updates the flags as `KeysAfter`, runs the command and recomputes the direction, as `OnKey` |
| Controls.Keyboard.KeyDown | src/main.c:49-74 | the press branch sets the arrow flag or runs the command |
| Controls.Keyboard.KeyUp | src/main.c:74-90 | the release branch clears the arrow flag |
| Controls.StartBenchmark | src/main.c:224-226 | the clamp main applies, then the scene, give the scene of the unclamped density |
| Controls.ClampBeforeSceneHarmless | src/main.c:224-225 | clamping before the scene changes nothing, since the scene clamps again |

## Left out

- Rendering, GLFW windows and input polling, textures, the frame loop of
  `main`, its fixed-timestep accumulator, argument parsing, timing and the
  benchmark's statistics: `src/main.c` outside `updatePlayerDirection`,
  `key_callback` and the density clamp is not part of this model, nor are
  `src/renderer.c` and `src/resources.c`.
- Floats are reals: single-precision rounding is not modelled.
- `sinf` and `rand()` are oracles; their values are unconstrained beyond
  `rand()` being non-negative.
- `int` overflow of the score, the lives and the level number is not
  modelled; these are unbounded integers.
- The rng.c generator is not connected to `rand()`: `src/game.c` calls
  libc's `rand()`, and the model keeps the two separate as the code does.
- World.CMod: a zero divisor is undefined in C; the model returns 0. No
  call in `src/game.c` divides by zero for the shapes the code creates.
- Rng.Fmix32: only the zero-to-zero fact about the splitmix32
  finaliser is proved, not that it is a bijection; its multiplications are
  out of the verifier's reach here.
- Rng.Rotl11Inverse: `rotl32` is proved only at the amounts the step uses
  (7 for the output, 11 and its inverse 21 for the state).
- Rng.Xoshiro128.Seed: the four `splitmix32` calls are written out inside
  the method rather than as a separate method taking `&s`.
- Rng.SeededState, Rng.NextState, Rng.PreviousState: their own contracts
  say only that four words come out; what the words mean is stated by the
  round-trip and seeding lemmas.
- Motion.BossVolley: its own contract only keeps the active bullets; the
  count it adds is in Motion.BossVolleyCount.
- Spawning.SpawnPowerup: its own contract only keeps the active slots;
  where the new powerup goes is in Spawning.SpawnPowerupFillsLowestFree.
- Controls.Keyboard.KeyCallback: the C `action` values other than press,
  repeat and release do not exist in the model; the C `scancode` and `mods`
  arguments are unused and left out.

## Findings

| source | as written | input that shows it | evidently intended | confidence | as-written member | corrected member |
|---|---|---|---|---|---|---|
| src/game.c:656-693 | the first collision pass scans the `activeEnemies` list built before the pass and never re-checks an entry's `active` flag, so an enemy killed by one bullet still absorbs and pays for later bullets of the same frame | one small enemy worth 30 with health 1 and two player bullets overlapping it: the score rises by 60 for one death | each death pays the enemy's score exactly once | not executed | Collisions.StaleListDoubleScores | Collisions.ShootEnemiesScoresEachKillOnce |

The frame model, `Collisions.Collide` and everything built on it, runs the
pass as written (`Collisions.ShootEnemiesAsWritten`), and
`Collisions.AsWrittenScore` states what it pays on all inputs: each
enemy's score once per hit that leaves it at zero health or below
(`Collisions.StalePay`), at least once per death. The corrected pass,
`Collisions.ShootEnemies`, re-checks each entry and is proved to pay each
death exactly once.
