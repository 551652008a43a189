/**
 * The game-state bus and the three entity classes that act on it: enemies
 * (js/npc/enemy.js), bullets (js/player/bullet.js) and the player's plane
 * (js/player/index.js).  The bus owns the ordered active lists and the object
 * pool; entities receive the bus as a parameter instead of reaching a global.
 * The classes share one module because the bus lists hold entities while the
 * entities' methods update the bus.
 *
 * Every `Math.random()` draw, the screen size and `Math.sin`/`Math.cos` are
 * parameters.  Positions and speeds are exact reals.
 */
module Game {
  import opened Difficulty
  import opened ArrayOps
  import opened Geometry
  import opened Weapon

  /** Math.PI, written as the decimal JavaScript prints for it. */
  const PI: real := 3.141592653589793

  const ENEMY_WIDTH: real := 60.0
  const ENEMY_HEIGHT: real := 60.0
  const BULLET_WIDTH: real := 16.0
  const BULLET_HEIGHT: real := 30.0
  const PLAYER_WIDTH: real := 80.0
  const PLAYER_HEIGHT: real := 80.0
  /** The sine movement: the swing either side of the spawn column, and its rate per pixel fallen. */
  const SINE_AMPLITUDE: real := 50.0
  const SINE_FREQUENCY: real := 0.05
  /** The player fires on every frame that is a multiple of this. */
  const PLAYER_SHOOT_INTERVAL: nat := 20
  /** The right edge `Bullet.update` tests against: a literal, not SCREEN_WIDTH. */
  const BULLET_RIGHT_EDGE: real := 375.0

  /** The object pool: the free list of each type key ('enemy', 'bullet'). */
  datatype Pool = Pool(enemy: seq<Enemy>, bullet: seq<Bullet>)

  /** No instance is listed twice. */
  ghost predicate Distinct<T>(s: seq<T>)
  {
    forall i, j :: 0 <= i < j < |s| ==> s[i] != s[j]
  }

  /** No instance is both on an active list and in its free list. */
  ghost predicate Exclusive<T>(active: seq<T>, free: seq<T>)
  {
    forall e :: e in active ==> e !in free
  }

  /**
   * Recycling a listed instance (`removeEnemy`/`removeBullets` on an entity
   * that is on its list) keeps the pool exclusive and loses nothing: the
   * instance moves from the active list to the free list, and every other
   * instance stays where it was.
   */
  lemma RecycleListed<T>(active: seq<T>, free: seq<T>, e: T)
    requires Distinct(active) && Distinct(free) && Exclusive(active, free)
    requires e in active
    ensures Distinct(Removed(active, e)) && Distinct(free + [e])
    ensures Exclusive(Removed(active, e), free + [e])
    ensures multiset(Removed(active, e)) + multiset(free + [e]) == multiset(active) + multiset(free)
  {
    RemovedPresent(active, e);
    RemovedDistinct(active, e);
    assert e !in free;
  }

  /** Removing a listed instance from a list without repeats leaves a list without repeats and without it. */
  lemma RemovedDistinct<T>(s: seq<T>, e: T)
    requires Distinct(s) && e in s
    ensures Distinct(Removed(s, e))
    ensures forall o :: o in Removed(s, e) ==> o in s && o != e
  {
    RemovedPresent(s, e);
    var i := IndexOf(s, e);
    var rest := Removed(s, e);
    assert rest == s[..i] + s[i + 1..];
    forall p | 0 <= p < |rest| ensures rest[p] == s[if p < i then p else p + 1] {
    }
    forall p, q | 0 <= p < q < |rest| ensures rest[p] != rest[q] {
    }
    forall o | o in rest ensures o in s && o != e {
      var p :| 0 <= p < |rest| && rest[p] == o;
    }
  }

  /**
   * Recycling an instance that is not on its list breaks the pool's
   * bookkeeping: `splice(-1, 1)` drops the last active instance, which ends up
   * in neither list, while the absent one is recovered anyway.
   */
  lemma RecycleUnlisted<T>(active: seq<T>, free: seq<T>, e: T)
    requires Distinct(active) && Exclusive(active, free)
    requires e !in active && |active| > 0
    ensures var last := active[|active| - 1];
      last !in Removed(active, e) && last !in free + [e]
  {
    RemovedAbsent(active, e);
    var last := active[|active| - 1];
    assert last !in active[..|active| - 1];
    assert last in active;
  }

  /** Recovering an instance the free list already holds puts it there twice. */
  lemma RecoverTwice<T>(free: seq<T>, e: T)
    requires e in free
    ensures !Distinct(free + [e])
  {
    var i :| 0 <= i < |free| && free[i] == e;
    assert (free + [e])[i] == (free + [e])[|free|];
  }

  /** The enemy movement types 'straight', 'zigzag' and 'sine'. */
  datatype Movement = Straight | Zigzag | Sine

  /** The global state of one game session. */
  class DataBus {
    var enemys: seq<Enemy>
    var bullets: seq<Bullet>
    var animations: seq<object>
    var frame: nat
    var score: nat
    var upgradeLevel: nat
    var lastUpgradeScore: nat
    var isGameOver: bool
    var pool: Pool

    constructor()
      ensures enemys == [] && bullets == [] && animations == []
      ensures frame == 0 && score == 0 && upgradeLevel == 0 && lastUpgradeScore == 0
      ensures !isGameOver && pool == Pool([], [])
    {
      enemys, bullets, animations := [], [], [];
      frame, score, upgradeLevel, lastUpgradeScore := 0, 0, 0, 0;
      isGameOver := false;
      pool := Pool([], []);
    }

    /** `reset`: a new session; pooled instances stay reusable. */
    method Reset()
      modifies this
      ensures frame == 0 && score == 0 && upgradeLevel == 0 && lastUpgradeScore == 0
      ensures bullets == [] && enemys == [] && animations == []
      ensures !isGameOver
      ensures pool == old(pool)
    {
      frame := 0;
      score := 0;
      upgradeLevel := 0;
      lastUpgradeScore := 0;
      bullets := [];
      enemys := [];
      animations := [];
      isGameOver := false;
    }

    /** `gameOver`: the one-way switch that freezes every entity; only `Reset` clears it. */
    method GameOver()
      modifies this`isGameOver
      ensures isGameOver
    {
      isGameOver := true;
    }

    /**
     * `removeEnemy`: splice the enemy out at its `indexOf` position (an absent
     * enemy makes that -1, which drops the last one) and recover it into the
     * pool.  `splice` always returns an array, which is truthy, so the recover
     * always happens.
     */
    method RemoveEnemy(enemy: Enemy)
      modifies this`enemys, this`pool
      ensures enemys == Removed(old(enemys), enemy)
      ensures pool == old(pool).(enemy := old(pool.enemy) + [enemy])
    {
      enemys := SpliceOne(enemys, IndexOf(enemys, enemy));
      pool := pool.(enemy := pool.enemy + [enemy]);
    }

    /** `removeBullets`: the same protocol on the bullet list and the 'bullet' key. */
    method RemoveBullets(bullet: Bullet)
      modifies this`bullets, this`pool
      ensures bullets == Removed(old(bullets), bullet)
      ensures pool == old(pool).(bullet := old(pool.bullet) + [bullet])
    {
      bullets := SpliceOne(bullets, IndexOf(bullets, bullet));
      pool := pool.(bullet := pool.bullet + [bullet]);
    }

    /**
     * The scan of `checkUpgrade`: walk the thresholds upwards and stop at the
     * first one the score misses.  Because the table is strictly ascending this
     * finds the largest level the score reaches.
     */
    static method ScanLevel(score: nat) returns (newLevel: nat)
      ensures newLevel == LevelForScore(score)
    {
      var requirements := UpgradeRequirements();
      newLevel := 0;
      var i := 0;
      while i < |requirements|
        invariant 0 <= i <= |requirements|
        invariant newLevel == if i == 0 then 0 else i - 1
        invariant forall j :: 0 <= j < i ==> requirements[j] <= score
      {
        if score >= requirements[i] {
          newLevel := i;
        } else {
          break;
        }
        i := i + 1;
      }
    }

    /**
     * `checkUpgrade`: level up to the level the score entitles to, if that is
     * higher, and remember the score it happened at.
     */
    method CheckUpgrade() returns (upgraded: bool)
      modifies this`upgradeLevel, this`lastUpgradeScore
      ensures upgraded <==> LevelForScore(score) > old(upgradeLevel)
      ensures upgraded ==> upgradeLevel == LevelForScore(score) && lastUpgradeScore == score
      ensures !upgraded ==> upgradeLevel == old(upgradeLevel) && lastUpgradeScore == old(lastUpgradeScore)
      ensures old(upgradeLevel) <= upgradeLevel
      ensures old(upgradeLevel) <= MAX_LEVEL ==> upgradeLevel <= MAX_LEVEL
    {
      var newLevel := ScanLevel(score);
      if newLevel > upgradeLevel {
        upgradeLevel := newLevel;
        lastUpgradeScore := score;
        return true;
      }
      return false;
    }

    /**
     * `pool.getItemByClass('bullet', Bullet)`: reuse the last pooled bullet, or
     * construct a new one when the free list is empty.
     */
    method GetBullet() returns (b: Bullet)
      modifies this`pool
      ensures old(pool.bullet) == [] ==> fresh(b) && pool == old(pool)
      ensures old(pool.bullet) != [] ==>
        var n := |old(pool.bullet)|;
        b == old(pool.bullet)[n - 1] && pool == old(pool).(bullet := old(pool.bullet)[..n - 1])
    {
      var n := |pool.bullet|;
      if n > 0 {
        b := pool.bullet[n - 1];
        pool := pool.(bullet := pool.bullet[..n - 1]);
      } else {
        b := new Bullet();
      }
    }
  }

  /** `getRandomX`: a whole-pixel column where an enemy fits, from a draw in [0, 1). */
  function RandomX(screenWidth: real, draw: real): (x: int)
    requires 0.0 <= draw < 1.0
    ensures screenWidth > ENEMY_WIDTH ==> 0 <= x && (x as real) < screenWidth - ENEMY_WIDTH
  {
    var room := screenWidth - ENEMY_WIDTH;
    var span := draw * room;
    assert room > 0.0 ==> 0.0 <= span < room by {
      if room > 0.0 {
        assert (1.0 - draw) * room > 0.0;
        assert span == room - (1.0 - draw) * room;
      }
    }
    span.Floor
  }

  /**
   * The movement type `init` picks: special only when the first draw falls
   * below the special chance, then zig-zag or sine by the second draw.
   */
  function ChooseMovement(specialChance: real, firstDraw: real, secondDraw: real): (m: Movement)
    ensures m != Straight <==> firstDraw < specialChance
    ensures m == Zigzag <==> firstDraw < specialChance && secondDraw < 0.5
  {
    if firstDraw < specialChance then (if secondDraw < 0.5 then Zigzag else Sine) else Straight
  }

  /** At level 0 the special chance is 0, so every enemy flies straight. */
  lemma FirstLevelEnemiesFlyStraight(upgradeLevel: nat, firstDraw: real, secondDraw: real)
    requires upgradeLevel == 0 && 0.0 <= firstDraw
    ensures ChooseMovement(SpecialEnemyChance(upgradeLevel), firstDraw, secondDraw) == Straight
  {
  }

  class Enemy {
    const width: real := ENEMY_WIDTH
    const height: real := ENEMY_HEIGHT
    /** Drawn once at construction; `init` scales it by the level's speed multiplier. */
    const baseSpeed: real
    /** Phase of the sine movement, drawn once at construction. */
    const sineOffset: real
    var x: real
    var y: real
    var startX: real
    var speed: real
    var movementType: Movement
    var zigzagDirection: int
    var isActive: bool
    var visible: bool

    ghost predicate Valid()
      reads this
    {
      zigzagDirection == 1 || zigzagDirection == -1
    }

    /** The fields the Sprite base class sets are not part of this model; they start at 0. */
    constructor(speedDraw: real, phaseDraw: real)
      requires 0.0 <= speedDraw < 1.0 && 0.0 <= phaseDraw < 1.0
      ensures Valid()
      ensures baseSpeed == speedDraw * 6.0 + 3.0 && 3.0 <= baseSpeed < 9.0
      ensures sineOffset == phaseDraw * PI * 2.0
      ensures movementType == Straight && zigzagDirection == 1
      ensures !isActive && !visible
    {
      baseSpeed := speedDraw * 6.0 + 3.0;
      sineOffset := phaseDraw * PI * 2.0;
      movementType := Straight;
      zigzagDirection := 1;
      x, y, startX, speed := 0.0, 0.0, 0.0, 0.0;
      isActive, visible := false, false;
    }

    /**
     * `init`: spawn above the top edge at a random column, with the level's
     * speed and movement type.  `zigzagDirection` is NOT reset: a recycled
     * enemy keeps the direction it last had.
     */
    method Init(bus: DataBus, screen: Screen, xDraw: real, specialDraw: real, kindDraw: real)
      requires 0.0 <= xDraw < 1.0 && 0.0 <= specialDraw < 1.0 && 0.0 <= kindDraw < 1.0
      modifies this
      ensures x == RandomX(screen.width, xDraw) as real && startX == x && y == -height
      ensures speed == baseSpeed * EnemySpeedMultiplier(bus.upgradeLevel)
      ensures movementType == ChooseMovement(SpecialEnemyChance(bus.upgradeLevel), specialDraw, kindDraw)
      ensures bus.upgradeLevel == 0 ==> movementType == Straight
      ensures isActive && visible
      ensures zigzagDirection == old(zigzagDirection)
    {
      x := RandomX(screen.width, xDraw) as real;
      y := -height;
      startX := x;
      var speedMultiplier := EnemySpeedMultiplier(bus.upgradeLevel);
      speed := baseSpeed * speedMultiplier;
      var specialChance := SpecialEnemyChance(bus.upgradeLevel);
      movementType := ChooseMovement(specialChance, specialDraw, kindDraw);
      isActive := true;
      visible := true;
    }

    /** Where the zig-zag step puts `x` before the clamp. */
    function ZigzagStep(): real
      reads this
    {
      x + 2.0 * zigzagDirection as real
    }

    /** `updateZigzagMovement`: step sideways; turn round at or beyond either edge. */
    method UpdateZigzagMovement(screen: Screen)
      requires Valid()
      modifies this`x, this`zigzagDirection
      ensures Valid()
      ensures x == old(ZigzagStep())
      ensures zigzagDirection ==
        if x <= 0.0 || x >= screen.width - width then -old(zigzagDirection) else old(zigzagDirection)
    {
      var zigzagSpeed := 2.0;
      x := x + zigzagSpeed * zigzagDirection as real;
      if x <= 0.0 || x >= screen.width - width {
        zigzagDirection := -zigzagDirection;
      }
    }

    /** `updateSineMovement`: swing 50 pixels either side of the spawn column. */
    method UpdateSineMovement(sin: real -> real)
      modifies this`x
      ensures x == startX + sin(y * SINE_FREQUENCY + sineOffset) * SINE_AMPLITUDE
    {
      var offset := sin(y * SINE_FREQUENCY + sineOffset) * SINE_AMPLITUDE;
      x := startX + offset;
    }

    /**
     * `update`: nothing once the game is over.  Otherwise fall by `speed`,
     * move sideways by the movement type, clamp to the playfield, and recycle
     * itself once fully below the bottom edge.
     */
    method Update(bus: DataBus, screen: Screen, sin: real -> real)
      requires Valid()
      modifies this, bus`enemys, bus`pool
      ensures Valid()
      ensures old(bus.isGameOver) ==>
        unchanged(this) && bus.enemys == old(bus.enemys) && bus.pool == old(bus.pool)
      ensures !old(bus.isGameOver) ==>
        y == old(y) + speed && speed == old(speed) && movementType == old(movementType) &&
        startX == old(startX) && 0.0 <= x && (screen.width >= width ==> x <= screen.width - width)
      ensures !old(bus.isGameOver) && movementType == Straight ==>
        x == Clamp(old(x), screen.width - width) && zigzagDirection == old(zigzagDirection)
      ensures !old(bus.isGameOver) && movementType == Zigzag ==>
        x == Clamp(old(ZigzagStep()), screen.width - width) &&
        zigzagDirection == if old(ZigzagStep()) <= 0.0 || old(ZigzagStep()) >= screen.width - width
          then -old(zigzagDirection) else old(zigzagDirection)
      ensures !old(bus.isGameOver) && movementType == Sine ==>
        x == Clamp(startX + sin(y * SINE_FREQUENCY + sineOffset) * SINE_AMPLITUDE, screen.width - width) &&
        zigzagDirection == old(zigzagDirection)
      ensures !old(bus.isGameOver) && y > screen.height + height ==>
        !isActive && !visible &&
        bus.enemys == Removed(old(bus.enemys), this) &&
        bus.pool == old(bus.pool).(enemy := old(bus.pool.enemy) + [this])
      ensures !old(bus.isGameOver) && y <= screen.height + height ==>
        isActive == old(isActive) && visible == old(visible) &&
        bus.enemys == old(bus.enemys) && bus.pool == old(bus.pool)
    {
      if bus.isGameOver {
        return;
      }
      y := y + speed;
      match movementType {
        case Zigzag => UpdateZigzagMovement(screen);
        case Sine => UpdateSineMovement(sin);
        case Straight =>
      }
      x := Clamp(x, screen.width - width);
      if y > screen.height + height {
        Remove(bus);
      }
    }

    /**
     * `destroy`: only marks the enemy inactive.  The handler it registers for
     * the end of the explosion returns a bound `remove` without calling it, so
     * the enemy is never taken off the bus's list this way.  The explosion,
     * sound and vibration are not part of this model.
     */
    method Destroy(bus: DataBus)
      modifies this`isActive
      ensures !isActive
      ensures bus.enemys == old(bus.enemys) && bus.pool == old(bus.pool)
    {
      isActive := false;
    }

    /** `remove`: hide, deactivate and hand itself back to the bus. */
    method Remove(bus: DataBus)
      modifies this`isActive, this`visible, bus`enemys, bus`pool
      ensures !isActive && !visible
      ensures bus.enemys == Removed(old(bus.enemys), this)
      ensures bus.pool == old(bus.pool).(enemy := old(bus.pool.enemy) + [this])
    {
      isActive := false;
      visible := false;
      bus.RemoveEnemy(this);
    }
  }

  class Bullet {
    const width: real := BULLET_WIDTH
    const height: real := BULLET_HEIGHT
    var x: real
    var y: real
    var speed: real
    var angle: real
    var isActive: bool
    var visible: bool

    /** The fields the Sprite base class sets are not part of this model; they start at 0. */
    constructor()
      ensures !isActive && !visible
    {
      x, y, speed, angle := 0.0, 0.0, 0.0, 0.0;
      isActive, visible := false, false;
    }

    /** The launch parameters a bullet carries. */
    function Snapshot(): Shot
      reads this
    {
      Shot(x, y, speed, angle)
    }

    /**
     * Off the field: the bullet's bottom edge is above the top, its right edge
     * is left of 0, or it is more than its own width past the fixed right edge
     * 375. A bullet inside the 375-wide field is never off it.
     */
    predicate OffField(): (off: bool)
      reads this
      ensures off <==> y + height < 0.0 || x + width < 0.0 || x - width > BULLET_RIGHT_EDGE
      ensures 0.0 <= x <= BULLET_RIGHT_EDGE && 0.0 <= y ==> !off
    {
      y < -height || x < -width || x > BULLET_RIGHT_EDGE + width
    }

    /** `init`: every mutable field is overwritten, so nothing of a previous use survives. */
    method Init(x: real, y: real, speed: real, angle: real := 0.0)
      modifies this
      ensures Snapshot() == Shot(x, y, speed, angle)
      ensures isActive && visible
    {
      this.x := x;
      this.y := y;
      this.speed := speed;
      this.angle := angle;
      this.isActive := true;
      this.visible := true;
    }

    /**
     * `update`: nothing once the game is over.  Otherwise move `speed` along
     * the angle (0 is straight up) and destroy the bullet once it is off the field.
     */
    method Update(bus: DataBus, sin: real -> real, cos: real -> real)
      requires sin(0.0) == 0.0 && cos(0.0) == 1.0
      modifies this, bus`bullets, bus`pool
      ensures old(bus.isGameOver) ==>
        unchanged(this) && bus.bullets == old(bus.bullets) && bus.pool == old(bus.pool)
      ensures !old(bus.isGameOver) ==>
        y == old(y) - speed * cos(angle) && x == old(x) + speed * sin(angle) &&
        speed == old(speed) && angle == old(angle)
      ensures !old(bus.isGameOver) && angle == 0.0 ==> y == old(y) - speed && x == old(x)
      ensures !old(bus.isGameOver) && OffField() ==>
        !isActive && !visible &&
        bus.bullets == Removed(old(bus.bullets), this) &&
        bus.pool == old(bus.pool).(bullet := old(bus.pool.bullet) + [this])
      ensures !old(bus.isGameOver) && !OffField() ==>
        isActive == old(isActive) && visible == old(visible) &&
        bus.bullets == old(bus.bullets) && bus.pool == old(bus.pool)
    {
      if bus.isGameOver {
        return;
      }
      y := y - speed * cos(angle);
      x := x + speed * sin(angle);
      if y < -height || x < -width || x > BULLET_RIGHT_EDGE + width {
        Destroy(bus);
      }
    }

    /** `destroy`: bullets have no explosion, so this is `remove` at once. */
    method Destroy(bus: DataBus)
      modifies this`isActive, this`visible, bus`bullets, bus`pool
      ensures !isActive && !visible
      ensures bus.bullets == Removed(old(bus.bullets), this)
      ensures bus.pool == old(bus.pool).(bullet := old(bus.pool.bullet) + [this])
    {
      isActive := false;
      Remove(bus);
    }

    /** `remove`: hide, deactivate and hand itself back to the bus. */
    method Remove(bus: DataBus)
      modifies this`isActive, this`visible, bus`bullets, bus`pool
      ensures !isActive && !visible
      ensures bus.bullets == Removed(old(bus.bullets), this)
      ensures bus.pool == old(bus.pool).(bullet := old(bus.pool.bullet) + [this])
    {
      isActive := false;
      visible := false;
      bus.RemoveBullets(this);
    }
  }

  /**
   * What one shot leaves behind, between the state before it and now: the
   * fired bullets are distinct, carry the given launch parameters in order,
   * are active and visible, and were appended to the end of the bus's bullet
   * list; each was taken from the 'bullet' free list or newly allocated. The
   * free list only lost entries from its end, every entry it lost was fired,
   * and it holds none of the fired bullets; the 'enemy' free list is as it
   * was.
   */
  twostate predicate Launched(bus: DataBus, new fired: seq<Bullet>, shots: seq<Shot>)
    reads bus, fired
  {
    |fired| == |shots| &&
    bus.bullets == old(bus.bullets) + fired &&
    bus.pool.enemy == old(bus.pool.enemy) &&
    bus.pool.bullet <= old(bus.pool.bullet) &&
    (forall b :: b in old(bus.pool.bullet) && b !in bus.pool.bullet ==> b in fired) &&
    Distinct(fired) &&
    forall k :: 0 <= k < |fired| ==>
      fired[k].Snapshot() == shots[k] && fired[k].isActive && fired[k].visible &&
      fired[k] !in bus.pool.bullet && (fired[k] in old(bus.pool.bullet) || !old(allocated(fired[k])))
  }

  /**
   * A shot keeps the pool's bookkeeping: appending distinct instances, each
   * taken from the free list or new to the active list, to an active list
   * without repeats that shares nothing with the free list, while the free
   * list only shrinks to a prefix without them, keeps both properties.
   */
  lemma AppendKeepsExclusive<T>(active: seq<T>, fired: seq<T>, free: seq<T>, rest: seq<T>)
    requires Distinct(active) && Exclusive(active, free)
    requires Distinct(fired) && rest <= free
    requires forall k :: 0 <= k < |fired| ==> fired[k] !in rest && (fired[k] in free || fired[k] !in active)
    ensures Distinct(active + fired) && Exclusive(active + fired, rest)
  {
    var all := active + fired;
    forall i, j | 0 <= i < j < |all| ensures all[i] != all[j] {
      if j >= |active| {
        var f := fired[j - |active|];
        assert f == all[j];
        if i < |active| {
          assert all[i] == active[i] && active[i] in active;
        } else {
          assert all[i] == fired[i - |active|];
        }
      }
    }
    forall e | e in all ensures e !in rest {
      if e in active {
        assert e !in free;
      } else {
        var k :| 0 <= k < |fired| && fired[k] == e;
      }
    }
  }

  /** One bullet of a shot: `getItemByClass('bullet', Bullet)`, `init`, push onto the bus. */
  method FireBullet(bus: DataBus, shot: Shot) returns (bullet: Bullet)
    requires Distinct(bus.pool.bullet)
    modifies bus`bullets, bus`pool, bus.pool.bullet
    ensures Distinct(bus.pool.bullet)
    ensures bullet.Snapshot() == shot && bullet.isActive && bullet.visible
    ensures bus.bullets == old(bus.bullets) + [bullet]
    ensures bus.pool.enemy == old(bus.pool.enemy)
    ensures bus.pool.bullet <= old(bus.pool.bullet)
    ensures forall b :: b in old(bus.pool.bullet) && b !in bus.pool.bullet ==> b == bullet
    ensures bullet !in bus.pool.bullet && (fresh(bullet) || bullet in old(bus.pool.bullet))
  {
    bullet := bus.GetBullet();
    bullet.Init(shot.x, shot.y, shot.speed, shot.angle);
    bus.bullets := bus.bullets + [bullet];
  }

  /** Two `FireBullet` calls in a row. */
  method FirePair(bus: DataBus, first: Shot, second: Shot) returns (fired: seq<Bullet>)
    requires Distinct(bus.pool.bullet)
    modifies bus`bullets, bus`pool, bus.pool.bullet
    ensures Distinct(bus.pool.bullet)
    ensures Launched(bus, fired, [first, second])
  {
    var bullet1 := FireBullet(bus, first);
    label Second:
    var bullet2 := FireBullet(bus, second);
    assert unchanged@Second(bullet1) && bullet1 != bullet2;
    fired := [bullet1, bullet2];
  }

  /** Three `FireBullet` calls in a row. */
  method FireTriple(bus: DataBus, first: Shot, second: Shot, third: Shot) returns (fired: seq<Bullet>)
    requires Distinct(bus.pool.bullet)
    modifies bus`bullets, bus`pool, bus.pool.bullet
    ensures Distinct(bus.pool.bullet)
    ensures Launched(bus, fired, [first, second, third])
  {
    var pair := FirePair(bus, first, second);
    assert pair[0] in pair && pair[1] in pair;
    label Third:
    var bullet3 := FireBullet(bus, third);
    assert unchanged@Third(pair[0], pair[1]) && bullet3 != pair[0] && bullet3 != pair[1];
    fired := pair + [bullet3];
  }

  /** The `forEach` of the spread tiers: one `FireBullet` per shot, in order. */
  method FireAll(bus: DataBus, shots: seq<Shot>) returns (fired: seq<Bullet>)
    requires Distinct(bus.pool.bullet)
    modifies bus`bullets, bus`pool, bus.pool.bullet
    ensures Distinct(bus.pool.bullet)
    ensures Launched(bus, fired, shots)
  {
    fired := [];
    for k := 0 to |shots|
      invariant Distinct(bus.pool.bullet)
      invariant |fired| == k && Distinct(fired)
      invariant bus.bullets == old(bus.bullets) + fired
      invariant bus.pool.enemy == old(bus.pool.enemy)
      invariant bus.pool.bullet <= old(bus.pool.bullet)
      invariant forall b :: b in old(bus.pool.bullet) && b !in bus.pool.bullet ==> b in fired
      invariant forall j :: 0 <= j < k ==>
        fired[j].Snapshot() == shots[j] && fired[j].isActive && fired[j].visible &&
        fired[j] !in bus.pool.bullet && (fired[j] in old(bus.pool.bullet) || !old(allocated(fired[j])))
    {
      assert forall j :: 0 <= j < |fired| ==> fired[j] in fired;
      label Before:
      var bullet := FireBullet(bus, shots[k]);
      assert forall j :: 0 <= j < |fired| ==> unchanged@Before(fired[j]) && fired[j] != bullet;
      fired := fired + [bullet];
    }
  }

  class Player {
    const width: real := PLAYER_WIDTH
    const height: real := PLAYER_HEIGHT
    var x: real
    var y: real
    /** Whether the finger that is down started on the plane. */
    var touched: bool
    var isActive: bool
    var visible: bool

    /** Registering the touch listeners is not part of this model; their bodies are the OnTouch methods. */
    constructor(screen: Screen)
      ensures x == screen.width / 2.0 - PLAYER_WIDTH / 2.0
      ensures y == screen.height - PLAYER_HEIGHT - 30.0
      ensures !touched && isActive && visible
    {
      new;
      Init(screen);
    }

    /** `init`: centred at the bottom of the screen, 30 pixels above the edge, not touched. */
    method Init(screen: Screen)
      modifies this
      ensures x == screen.width / 2.0 - width / 2.0 && y == screen.height - height - 30.0
      ensures !touched && isActive && visible
    {
      x := screen.width / 2.0 - width / 2.0;
      y := screen.height - height - 30.0;
      touched := false;
      isActive := true;
      visible := true;
    }

    /**
     * `checkIsFingerOnAir`: the finger is within 30 pixels of the plane's box.
     * A finger on the plane itself always counts.
     */
    function CheckIsFingerOnAir(fx: real, fy: real): (onAir: bool)
      reads this
      ensures x <= fx <= x + width && y <= fy <= y + height ==> onAir
    {
      var deviation := 30.0;
      fx >= x - deviation && fy >= y - deviation &&
      fx <= x + width + deviation && fy <= y + height + deviation
    }

    /**
     * `setAirPosAcrossFingerPosZ`: centre the plane on the finger, clamped so
     * the plane stays on the screen.  A finger on the screen is then still on
     * the plane, so a drag keeps hold of it.
     */
    method SetAirPosAcrossFingerPosZ(screen: Screen, fx: real, fy: real)
      modifies this`x, this`y
      ensures x == FingerCentred(fx, width, screen.width) && y == FingerCentred(fy, height, screen.height)
      ensures Playable(screen) ==> 0.0 <= x <= screen.width - width && 0.0 <= y <= screen.height - height
      ensures 0.0 <= fx - width / 2.0 <= screen.width - width ==> x == fx - width / 2.0
      ensures 0.0 <= fy - height / 2.0 <= screen.height - height ==> y == fy - height / 2.0
      ensures Playable(screen) && 0.0 <= fx <= screen.width && 0.0 <= fy <= screen.height ==>
        CheckIsFingerOnAir(fx, fy)
    {
      var disX := Clamp(fx - width / 2.0, screen.width - width);
      var disY := Clamp(fy - height / 2.0, screen.height - height);
      x := disX;
      y := disY;
      if Playable(screen) && 0.0 <= fx <= screen.width && 0.0 <= fy <= screen.height {
        FingerStaysOnPlane(fx, width, screen.width);
        FingerStaysOnPlane(fy, height, screen.height);
      }
    }

    /** The touch-start handler: grab the plane only when the finger lands on it. */
    method OnTouchStart(bus: DataBus, screen: Screen, fx: real, fy: real)
      modifies this`touched, this`x, this`y
      ensures bus.isGameOver || !old(CheckIsFingerOnAir(fx, fy)) ==> unchanged(this)
      ensures !bus.isGameOver && old(CheckIsFingerOnAir(fx, fy)) ==>
        touched && x == FingerCentred(fx, width, screen.width) && y == FingerCentred(fy, height, screen.height)
    {
      if bus.isGameOver {
        return;
      }
      if CheckIsFingerOnAir(fx, fy) {
        touched := true;
        SetAirPosAcrossFingerPosZ(screen, fx, fy);
      }
    }

    /** The touch-move handler: drag the plane only while it is held. */
    method OnTouchMove(bus: DataBus, screen: Screen, fx: real, fy: real)
      modifies this`x, this`y
      ensures bus.isGameOver || !touched ==> unchanged(this)
      ensures !bus.isGameOver && touched ==>
        x == FingerCentred(fx, width, screen.width) && y == FingerCentred(fy, height, screen.height)
    {
      if bus.isGameOver {
        return;
      }
      if touched {
        SetAirPosAcrossFingerPosZ(screen, fx, fy);
      }
    }

    /** The touch-end handler: let go of the plane. */
    method OnTouchEnd()
      modifies this`touched
      ensures !touched
    {
      touched := false;
    }

    /** The touch-cancel handler: let go of the plane. */
    method OnTouchCancel()
      modifies this`touched
      ensures !touched
    {
      touched := false;
    }

    /** `shootSingle`. */
    method ShootSingle(bus: DataBus) returns (fired: seq<Bullet>)
      requires Distinct(bus.pool.bullet)
      modifies bus`bullets, bus`pool, bus.pool.bullet
      ensures Distinct(bus.pool.bullet)
      ensures Launched(bus, fired, SingleShot(x, y, width, BULLET_WIDTH))
    {
      var bullet := FireBullet(bus, SingleShot(x, y, width, BULLET_WIDTH)[0]);
      fired := [bullet];
    }

    /** `shootDouble`. */
    method ShootDouble(bus: DataBus) returns (fired: seq<Bullet>)
      requires Distinct(bus.pool.bullet)
      modifies bus`bullets, bus`pool, bus.pool.bullet
      ensures Distinct(bus.pool.bullet)
      ensures Launched(bus, fired, DoubleShot(x, y, width, BULLET_WIDTH))
    {
      var shots := DoubleShot(x, y, width, BULLET_WIDTH);
      fired := FirePair(bus, shots[0], shots[1]);
    }

    /** `shootTriple`. */
    method ShootTriple(bus: DataBus) returns (fired: seq<Bullet>)
      requires Distinct(bus.pool.bullet)
      modifies bus`bullets, bus`pool, bus.pool.bullet
      ensures Distinct(bus.pool.bullet)
      ensures Launched(bus, fired, TripleShot(x, y, width, BULLET_WIDTH))
    {
      var shots := TripleShot(x, y, width, BULLET_WIDTH);
      fired := FireTriple(bus, shots[0], shots[1], shots[2]);
    }

    /** `shootSpread`, `shootEnhancedSpread`, `shootMaximum`: one bullet per angle from the plane's centre. */
    method ShootFan(bus: DataBus, speed: real, angles: seq<real>) returns (fired: seq<Bullet>)
      requires Distinct(bus.pool.bullet)
      modifies bus`bullets, bus`pool, bus.pool.bullet
      ensures Distinct(bus.pool.bullet)
      ensures Launched(bus, fired, Fan(x + width / 2.0 - BULLET_WIDTH / 2.0, y - 10.0, speed, angles))
    {
      fired := FireAll(bus, Fan(x + width / 2.0 - BULLET_WIDTH / 2.0, y - 10.0, speed, angles));
    }

    /** `shootSpread`. */
    method ShootSpread(bus: DataBus) returns (fired: seq<Bullet>)
      requires Distinct(bus.pool.bullet)
      modifies bus`bullets, bus`pool, bus.pool.bullet
      ensures Distinct(bus.pool.bullet)
      ensures Launched(bus, fired, SpreadShot(x, y, width, BULLET_WIDTH))
    {
      fired := ShootFan(bus, 10.0, SPREAD_ANGLES);
    }

    /** `shootEnhancedSpread`. */
    method ShootEnhancedSpread(bus: DataBus) returns (fired: seq<Bullet>)
      requires Distinct(bus.pool.bullet)
      modifies bus`bullets, bus`pool, bus.pool.bullet
      ensures Distinct(bus.pool.bullet)
      ensures Launched(bus, fired, EnhancedSpreadShot(x, y, width, BULLET_WIDTH))
    {
      fired := ShootFan(bus, 12.0, ENHANCED_SPREAD_ANGLES);
    }

    /** `shootMaximum`. */
    method ShootMaximum(bus: DataBus) returns (fired: seq<Bullet>)
      requires Distinct(bus.pool.bullet)
      modifies bus`bullets, bus`pool, bus.pool.bullet
      ensures Distinct(bus.pool.bullet)
      ensures Launched(bus, fired, MaximumShot(x, y, width, BULLET_WIDTH))
    {
      fired := ShootFan(bus, 15.0, MAXIMUM_ANGLES);
    }

    /** `shoot`: the tier of the capped level; the sound it plays is not part of this model. */
    method Shoot(bus: DataBus) returns (fired: seq<Bullet>)
      requires Distinct(bus.pool.bullet)
      modifies bus`bullets, bus`pool, bus.pool.bullet
      ensures Distinct(bus.pool.bullet)
      ensures Launched(bus, fired, Volley(bus.upgradeLevel, x, y, width, BULLET_WIDTH))
      ensures old(Distinct(bus.bullets) && Exclusive(bus.bullets, bus.pool.bullet)) ==>
        Distinct(bus.bullets) && Exclusive(bus.bullets, bus.pool.bullet)
    {
      ghost var wasExclusive := Distinct(bus.bullets) && Exclusive(bus.bullets, bus.pool.bullet);
      var upgradeLevel := CappedLevel(bus.upgradeLevel);
      match upgradeLevel {
        case 0 => fired := ShootSingle(bus);
        case 1 => fired := ShootDouble(bus);
        case 2 => fired := ShootTriple(bus);
        case 3 => fired := ShootSpread(bus);
        case 4 => fired := ShootEnhancedSpread(bus);
        case _ => fired := ShootMaximum(bus);
      }
      if wasExclusive {
        ghost var before, free := old(bus.bullets), old(bus.pool.bullet);
        assert forall b :: b in before ==> old(allocated(b));
        assert forall k :: 0 <= k < |fired| ==> fired[k] !in bus.pool.bullet && (fired[k] in free || fired[k] !in before);
        AppendKeepsExclusive(before, fired, free, bus.pool.bullet);
      }
    }

    /** `update`: nothing once the game is over; otherwise shoot on every 20th frame. */
    method Update(bus: DataBus) returns (fired: seq<Bullet>)
      requires Distinct(bus.pool.bullet)
      modifies bus`bullets, bus`pool, bus.pool.bullet
      ensures Distinct(bus.pool.bullet)
      ensures bus.isGameOver || bus.frame % PLAYER_SHOOT_INTERVAL != 0 ==>
        fired == [] && bus.bullets == old(bus.bullets) && bus.pool == old(bus.pool) &&
        forall b :: b in old(bus.pool.bullet) ==> unchanged(b)
      ensures !bus.isGameOver && bus.frame % PLAYER_SHOOT_INTERVAL == 0 ==>
        Launched(bus, fired, Volley(bus.upgradeLevel, x, y, width, BULLET_WIDTH))
      ensures old(Distinct(bus.bullets) && Exclusive(bus.bullets, bus.pool.bullet)) ==>
        Distinct(bus.bullets) && Exclusive(bus.bullets, bus.pool.bullet)
    {
      fired := [];
      if bus.isGameOver {
        return;
      }
      if bus.frame % PLAYER_SHOOT_INTERVAL == 0 {
        fired := Shoot(bus);
      }
    }

    /** `destroy`: the explosion, sound and vibration are not part of this model. */
    method Destroy()
      modifies this`isActive
      ensures !isActive
    {
      isActive := false;
    }
  }
}
