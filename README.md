# Air War game core in Dafny

This project models the game logic of a WeChat mini-game shooter: the global
state bus (`js/databus.js`), the enemy plane (`js/npc/enemy.js`), the bullet
(`js/player/bullet.js`) and the player's plane (`js/player/index.js`).

- `difficulty.dfy`, module `Difficulty`: the upgrade threshold table
  `[0, 10, 30, 60, 100, 150]`, the level a score entitles to, the level cap of 5,
  the next threshold, and the spawn interval, enemy speed multiplier and
  special-enemy chance of a level.
- `array_ops.dfy`, module `ArrayOps`: JavaScript's `indexOf` and
  `splice(start, 1)`, including the negative start, and `Removed`, the list
  `list.splice(list.indexOf(x), 1)` leaves.
- `geometry.dfy`, module `Geometry`: the screen size as a value, the clamp to
  the playfield, and the finger-centred plane position.
- `weapon.dfy`, module `Weapon`: the six weapon tiers as sequences of
  `(x, y, speed, angle)` launch parameters, in push order.
- `game.dfy`, module `Game`: the classes `DataBus`, `Enemy`, `Bullet` and
  `Player`. The bus holds `enemys: seq<Enemy>`, `bullets: seq<Bullet>`,
  `animations: seq<object>`, the counters, `isGameOver`, and the pool. The pool is
  a `Pool` value with one free list per type key ('enemy', 'bullet').
  Entities get the bus as a parameter instead of reading `GameGlobal.databus`.
  Each state-changing method states its new state in terms of the old one. The
  shooting methods pin the 'bullet' free list down to a prefix of the old list
  whose dropped entries were all fired. They do not state that the bullets
  still in the free list are untouched.
- `wrappers.dfy`: `Option`, for the `null` that `getNextUpgradeScore` returns.

The screen size, every `Math.random()` draw, and `Math.sin`/`Math.cos` are
parameters. Positions, speeds, angles and the difficulty factors are exact
`real`s.

The code has these quirks, and the model keeps them:

- Removing an absent entity is not a no-op. `indexOf` gives -1, and
  `splice(-1, 1)` drops the last entity of the list. The entity passed in is still
  recovered into the pool, because `splice` returns an array, which is truthy.
  So removing twice is not idempotent (`ArrayOps.RemovedTwice`). The pool also
  loses track of an instance this way (`Game.RecycleUnlisted`). Exclusivity of the
  active lists and free lists holds only for entities that are listed
  (`Game.RecycleListed`).
- `Enemy.destroy` registers a handler that returns `this.remove.bind(this)`
  without calling it. A destroyed enemy only becomes inactive and stays on `enemys`.
- `Enemy.init` does not reset `zigzagDirection`, so a recycled zig-zag enemy
  keeps the direction it last had.
- `Bullet.update` tests the right edge against the literal 375, not the screen width.
- The spawn-interval floor of 10 is never reached below the cap: at level 5,
  30 - 4 * 5 is already 10.
- The special-enemy chance stops rising one level before the cap. Level 4 already
  reaches the 0.6 ceiling (4 * 0.15), so level 5 is no more likely to bring
  special enemies than level 4 (`Difficulty.SpecialEnemyChanceNonDecreasing`).

## Model

| member | source | states |
|---|---|---|
| `Difficulty.UpgradeRequirements` | js/databus.js:73-75 | the table has six thresholds, starts at 0 and is strictly ascending |
| `Difficulty.HighestReached` | js/databus.js:83-92 | the highest index below n whose threshold the score reaches; every later index below n is out of reach |
| `Difficulty.LevelForScore` | js/databus.js:83-92 | the level of a score is the largest i with score >= requirements[i]; it is at most 5 |
| `Difficulty.LevelForScoreMonotone` | js/databus.js:86-92 | a higher score never gives a lower level |
| `Difficulty.LevelForThreshold` | js/databus.js:73-92 | a score exactly at a threshold gives that threshold's level |
| `Difficulty.CappedLevel` | js/databus.js:118-120 | `getUpgradeLevel` is at most 5: the raw level below the cap, 5 above it |
| `Difficulty.NextUpgradeScore` | js/databus.js:105-113 | `null` exactly when the raw level + 1 is past the table; otherwise a threshold above the current level's |
| `Difficulty.NextUpgradeScoreReached` | js/databus.js:105-113 | the announced next score is the least score that entitles to a level above the current one: a score at or above it does, any lower score does not |
| `Difficulty.EnemySpawnInterval` | js/databus.js:126-130 | the interval lies in [10, 30]: 30 at level 0 and 10 from the cap on |
| `Difficulty.EnemySpawnIntervalNonIncreasing` | js/databus.js:126-130 | the interval never grows with the level, and shrinks strictly with every level up to the cap |
| `Difficulty.EnemySpeedMultiplier` | js/databus.js:136-139 | the multiplier lies in [1, 2.5] and is 1 at level 0 |
| `Difficulty.EnemySpeedMultiplierIncreasing` | js/databus.js:136-139 | the multiplier never shrinks and grows strictly up to the cap |
| `Difficulty.SpecialEnemyChance` | js/databus.js:145-148 | the chance lies in [0, 0.6] and is 0 exactly at level 0 |
| `Difficulty.SpecialEnemyChanceNonDecreasing` | js/databus.js:145-148 | the chance never shrinks with the level, grows strictly up to level 4, and stays at 0.6 from level 4 on |
| `ArrayOps.IndexOf` | js/databus.js:51 | -1 exactly when the element is absent; otherwise the position of its first occurrence |
| `ArrayOps.SpliceStart` | js/databus.js:51 | a negative splice start counts back from the end, clamped to [0, length] |
| `ArrayOps.SpliceOneDropsOne` | js/databus.js:51 | `splice(start, 1)` drops exactly one element, the one at the normalised start, when that start is inside the list, and changes nothing otherwise |
| `ArrayOps.RemovedPresent` | js/databus.js:50-55 | a listed element loses its first occurrence; the rest keep their order; the multiset loses one copy |
| `ArrayOps.RemovedAbsent` | js/databus.js:51 | an absent element makes the splice drop the last element; an empty list stays empty |
| `ArrayOps.RemovedTwice` | js/databus.js:50-55 | removing the same element twice drops a second, different element |
| `Geometry.Clamp` | js/npc/enemy.js:79 | `max(0, min(v, hi))` is in [0, hi] when hi >= 0 and equals v when v is already in range |
| `Geometry.FingerCentred` | js/player/index.js:69-81 | the plane coordinate stays in [0, limit - size] and is finger - size/2 when that fits |
| `Geometry.FingerStaysOnPlane` | js/player/index.js:54-81 | after the plane follows a finger on the screen, the finger is within the 30-pixel tolerance |
| `Weapon.SingleShot` | js/player/index.js:160-164 | one bullet centred over the plane, 10 pixels above it, straight up at speed 10 |
| `Weapon.DoubleShot` | js/player/index.js:169-176 | two bullets centred at one and two thirds of the plane's width, 10 pixels above it, straight up at speed 10 |
| `Weapon.TripleShot` | js/player/index.js:182-191 | three bullets centred at a quarter, a half and three quarters of the plane's width, 10 pixels above it, straight up at speed 10 |
| `Weapon.SpreadShot` | js/player/index.js:197-209 | five bullets centred over the plane, 10 pixels above it, at speed 10, at the angles -0.3, -0.15, 0, 0.15 and 0.3 in order |
| `Weapon.EnhancedSpreadShot` | js/player/index.js:215-227 | seven bullets centred over the plane, 10 pixels above it, at speed 12, at the seven enhanced angles in order |
| `Weapon.MaximumShot` | js/player/index.js:233-245 | nine bullets centred over the plane, 10 pixels above it, at speed 15, at the nine maximum angles in order |
| `Weapon.Volley` | js/player/index.js:124-152 | the capped levels 0 to 5 fire 1, 2, 3, 5, 7 and 9 bullets |
| `Weapon.TierSpeed` | js/player/index.js:124-246 | levels up to 3 fly at speed 10, level 4 at 12, level 5 and above at 15 |
| `Weapon.ParallelTiersFlyStraight` | js/player/index.js:160-192 | tiers 0-2 fire straight up at speed 10 from 10 pixels above the plane; the bullets go left to right, each centred over the plane |
| `Weapon.AngleTablesSymmetric` | js/player/index.js:198-234 | the three angle tables have an odd count, rise strictly, mirror about the middle and aim the middle bullet straight ahead |
| `Weapon.FanFollowsAngles` | js/player/index.js:200-209 | a fan over a symmetric angle table keeps that shape, with every bullet from the same point at the same speed |
| `Weapon.SpreadTiersFanOut` | js/player/index.js:197-246 | tiers 3-5 fire from the plane's centre at the tier's speed; the angles rise strictly, mirror about 0, and the middle bullet flies straight |
| `Weapon.VolleyNeverWeakens` | js/player/index.js:124-246 | a higher level never fires fewer or slower bullets, and a higher capped level fires strictly more |
| `Game.RecycleListed` | js/databus.js:50-67 | recycling a listed entity keeps lists duplicate-free and exclusive, and no instance is lost or duplicated |
| `Game.RemovedDistinct` | js/databus.js:50-55 | splicing a listed instance out of a duplicate-free list leaves it duplicate-free, without that instance, and with nothing new |
| `Game.AppendKeepsExclusive` | js/player/index.js:124-155 | a shot keeps the bullet list duplicate-free and disjoint from the free list: the fired bullets are distinct, come from the free list or are new, and leave it |
| `Game.RecycleUnlisted` | js/databus.js:50-55 | recycling an unlisted entity leaves the last active instance in neither list |
| `Game.RecoverTwice` | js/databus.js:53 | recovering an instance the free list already holds duplicates it |
| `Game.DataBus.constructor` | js/databus.js:11-26 | a new bus has empty lists, zero counters, no game over and an empty pool |
| `Game.DataBus.Reset` | js/databus.js:29-38 | counters are 0, the three lists are empty, the game is not over, and the pool is untouched |
| `Game.DataBus.GameOver` | js/databus.js:41-43 | sets `isGameOver` and changes no other field |
| `Game.DataBus.RemoveEnemy` | js/databus.js:50-55 | `enemys` becomes `Removed(enemys, e)` and `e` is appended to the 'enemy' free list; nothing else changes |
| `Game.DataBus.RemoveBullets` | js/databus.js:62-67 | `bullets` becomes `Removed(bullets, b)` and `b` is appended to the 'bullet' free list; nothing else changes |
| `Game.DataBus.ScanLevel` | js/databus.js:82-92 | the upward scan that stops at the first missed threshold finds `LevelForScore(score)` |
| `Game.DataBus.CheckUpgrade` | js/databus.js:81-100 | returns true exactly when the score's level exceeds the current level; then the level and `lastUpgradeScore` are updated, otherwise nothing changes; the level never decreases and stays <= 5 |
| `Game.DataBus.GetBullet` | js/player/index.js:161 | hands out the last pooled bullet and drops it from the free list, or a new bullet when the free list is empty |
| `Game.RandomX` | js/npc/enemy.js:42-44 | for a draw in [0, 1) the column is an integer in [0, SCREEN_WIDTH - 60) |
| `Game.ChooseMovement` | js/npc/enemy.js:28-33 | the enemy is special exactly when the first draw is below the chance; zig-zag when the second is also below 0.5 |
| `Game.FirstLevelEnemiesFlyStraight` | js/npc/enemy.js:28-33 | at level 0 every enemy flies straight |
| `Game.Enemy.constructor` | js/npc/enemy.js:10-16 | the base speed is in [3, 9), the sine phase is draw * 2 * PI, and the enemy starts straight with direction 1, inactive and hidden |
| `Game.Enemy.Init` | js/npc/enemy.js:18-39 | sets the position, speed and movement type from the level and the draws, activates the enemy, and keeps `zigzagDirection` |
| `Game.Enemy.UpdateZigzagMovement` | js/npc/enemy.js:90-98 | x moves by 2 * direction; the direction flips exactly when the new x is at or past an edge and stays +-1 |
| `Game.Enemy.UpdateSineMovement` | js/npc/enemy.js:103-108 | x is the spawn column plus 50 * sin(0.05 * y + phase) |
| `Game.Enemy.Update` | js/npc/enemy.js:57-85 | frozen when the game is over; otherwise y grows by speed, x follows the movement type and ends in [0, SCREEN_WIDTH - 60], and an enemy below the screen is recycled |
| `Game.Enemy.Destroy` | js/npc/enemy.js:110-119 | only clears `isActive`; the bus is left as it was |
| `Game.Enemy.Remove` | js/npc/enemy.js:121-125 | hides and deactivates the enemy and recycles it through `RemoveEnemy` |
| `Game.Bullet.constructor` | js/player/bullet.js:8-10 | a new bullet is inactive and hidden until `Init` |
| `Game.Bullet.OffField` | js/player/bullet.js:32 | off the field exactly when the bottom edge is above the top, the right edge is left of 0, or x is more than a width past 375; a bullet inside the field is never off it |
| `Game.Bullet.Init` | js/player/bullet.js:12-19 | overwrites x, y, speed and angle (angle 0 by default) and activates the bullet |
| `Game.Bullet.Update` | js/player/bullet.js:22-35 | frozen when the game is over; otherwise moves speed along the angle (straight up at angle 0) and is recycled exactly when off the 375-wide box |
| `Game.Bullet.Destroy` | js/player/bullet.js:37-41 | is `remove` at once |
| `Game.Bullet.Remove` | js/player/bullet.js:43-48 | hides and deactivates the bullet and recycles it through `RemoveBullets` |
| `Game.FireBullet` | js/player/index.js:200-208 | one fetched bullet carries the shot, is active, and is appended to `bullets` |
| `Game.FireAll` | js/player/index.js:200-209 | fires one bullet per shot, in order: distinct bullets, each from the free list or new, carry the shots, are active, leave the free list, and are appended to `bullets` |
| `Game.FirePair` | js/player/index.js:169-175 | two distinct fetched bullets, each from the free list or new, carry the two shots in order, are active and out of the free list, and are appended to `bullets` |
| `Game.FireTriple` | js/player/index.js:182-190 | three distinct fetched bullets, each from the free list or new, carry the three shots in order, are active and out of the free list, and are appended to `bullets` |
| `Game.Player.constructor` | js/player/index.js:13-21 | a new player is placed as `init` places it |
| `Game.Player.Init` | js/player/index.js:23-36 | the plane sits centred, 30 pixels above the bottom edge, untouched and active |
| `Game.Player.CheckIsFingerOnAir` | js/player/index.js:54-62 | a finger on the plane's own box always counts as on the plane |
| `Game.Player.SetAirPosAcrossFingerPosZ` | js/player/index.js:69-81 | the plane is centred on the finger and clamped to the screen; a finger on the screen stays on the plane |
| `Game.Player.OnTouchStart` | js/player/index.js:88-98 | when the game is not over and the finger is on the plane, the plane is held and follows the finger; otherwise nothing changes |
| `Game.Player.OnTouchMove` | js/player/index.js:100-109 | the plane follows the finger only while held and the game is not over |
| `Game.Player.OnTouchEnd` | js/player/index.js:111-113 | lets go of the plane |
| `Game.Player.OnTouchCancel` | js/player/index.js:115-117 | lets go of the plane |
| `Game.Player.ShootSingle` | js/player/index.js:160-164 | appends the one bullet of tier 0 |
| `Game.Player.ShootDouble` | js/player/index.js:169-177 | appends the two bullets of tier 1, in order |
| `Game.Player.ShootTriple` | js/player/index.js:182-192 | appends the three bullets of tier 2, in order |
| `Game.Player.ShootFan` | js/player/index.js:197-209 | appends `Fan`'s shots from the plane's centre, one bullet per angle, in list order |
| `Game.Player.ShootSpread` | js/player/index.js:197-210 | appends the five bullets of tier 3 |
| `Game.Player.ShootEnhancedSpread` | js/player/index.js:215-228 | appends the seven bullets of tier 4 |
| `Game.Player.ShootMaximum` | js/player/index.js:233-246 | appends the nine bullets of tier 5 |
| `Game.Player.Shoot` | js/player/index.js:124-155 | appends exactly the volley of the capped level to the end of `bullets` and keeps the existing entries; a duplicate-free bullet list disjoint from the free list stays so |
| `Game.Player.Update` | js/player/index.js:248-257 | fires the volley exactly when the game is not over and the frame is a multiple of 20; otherwise changes neither the bullet list, the pool, nor any pooled bullet; a duplicate-free bullet list disjoint from the free list stays so |
| `Game.Player.Destroy` | js/player/index.js:259-266 | clears `isActive` |

## Left out

- WeChat host I/O is not part of this model. That covers the registration of the touch listeners
  (`wx.onTouchStart` and the others), `wx.vibrateShort` and
  `GameGlobal.musicManager`. The listener bodies are the `OnTouch*` methods,
  which take the touch coordinates.
- The `Animation` and `Sprite` base classes are not part of this model. That covers
  `initFrames`, `playAnimation`, the `stopAnimation` event, drawing, and the fields
  the base constructors set (the constructors here start them at 0).
- Game.Bullet.constructor: a new bullet starts inactive and hidden. The source's
  constructor only calls the `Sprite` base constructor, which is not part of this model, so
  this start state is the model's choice. Every fetched bullet goes through `Init` before use.
- Game.Enemy.constructor: a new enemy starts inactive and hidden, for the same reason;
  `Init` sets both flags before the enemy is used.
  `initExplosionAnimation` is not modelled.
- `Math.sin` and `Math.cos` are function parameters. Only facts that do not depend on their
  values are proved, apart from sin 0 = 0 and cos 0 = 1 for straight bullets.
  `this.angle || 0` is the angle itself, because a real is never NaN.
- `Math.random()` draws are parameters in [0, 1). `Math.PI` is the decimal
  3.141592653589793.
- IEEE double rounding is not modelled. `0.3 * level` and `0.15 * level` are exact rationals.
- The singleton trick of the `DataBus` constructor is not modelled: the bus is one object passed explicitly.
- `js/base/pool.js` is not part of this model. `recover` appends to the key's free list. `getItemByClass`
  (`DataBus.GetBullet`) hands out the last free-list entry, or constructs a new bullet when
  the list is empty.
- The frame loop, collision checks, score increments, enemy spawning and the
  callers of `checkUpgrade` are outside these files. `frame` and `score` are read, never advanced.
- `SCREEN_WIDTH` and `SCREEN_HEIGHT` are a `Screen` value. The bounds that need a
  large enough screen say so in their conclusions (`Playable`, width >= 60).
- `shootDouble` and `shootTriple` fetch all their bullets before initialising
  any. The model fetches and initialises one bullet at a time, which ends in the
  same state because the fetched instances are distinct.
- Game.FireBullet: requires the 'bullet' free list to hold no instance twice. That is the pool's
  "never recover twice" rule. Without it two fetches could return one instance, and
  the second `init` would overwrite the first, so that case is not described.
- Game.FireAll: same free-list requirement as `FireBullet`.
- Game.FirePair: same free-list requirement as `FireBullet`.
- Game.FireTriple: same free-list requirement as `FireBullet`.
- Game.Player.ShootSingle: same free-list requirement as `FireBullet`.
- Game.Player.ShootDouble: same free-list requirement as `FireBullet`.
- Game.Player.ShootTriple: same free-list requirement as `FireBullet`.
- Game.Player.ShootFan: same free-list requirement as `FireBullet`.
- Game.Player.ShootSpread: same free-list requirement as `FireBullet`.
- Game.Player.ShootEnhancedSpread: same free-list requirement as `FireBullet`.
- Game.Player.ShootMaximum: same free-list requirement as `FireBullet`.
- Game.Player.Shoot: same free-list requirement as `FireBullet`.
- Game.Player.Update: same free-list requirement as `FireBullet`.
- Game.Player.Shoot: like every shooting method, it does not state that the pooled
  bullets it did not fire keep their fields. They are in its frame because any of them
  could be fetched, and stating it made the proofs too costly.
