/**
 * The difficulty model of the game-state bus (js/databus.js): the score
 * thresholds of the upgrade levels and the read-only functions of the capped
 * level that drive enemy spawning and firing.  Everything here is a pure
 * function of the score or of the raw `upgradeLevel` counter.
 */
module Difficulty {
  import opened Wrappers

  /** The highest level `getUpgradeLevel` ever reports. */
  const MAX_LEVEL: nat := 5

  /** `getUpgradeRequirements`: the score needed for each level, front-loaded. */
  function UpgradeRequirements(): (table: seq<nat>)
    ensures |table| == 6 && table[0] == 0
    ensures forall i, j :: 0 <= i < j < |table| ==> table[i] < table[j]
  {
    [0, 10, 30, 60, 100, 150]
  }

  /**
   * The highest index below `n` whose threshold `score` reaches.  Index 0 has
   * threshold 0, so there always is one.
   */
  function HighestReached(score: nat, n: nat): (level: nat)
    requires 1 <= n <= |UpgradeRequirements()|
    ensures level < n && UpgradeRequirements()[level] <= score
    ensures forall j :: level < j < n ==> score < UpgradeRequirements()[j]
    decreases n
  {
    if n == 1 then 0
    else if UpgradeRequirements()[n - 1] <= score then n - 1
    else HighestReached(score, n - 1)
  }

  /** The level a score entitles to: the largest i with score >= requirements[i]. */
  function LevelForScore(score: nat): (level: nat)
    ensures level <= MAX_LEVEL && UpgradeRequirements()[level] <= score
    ensures forall j :: level < j < |UpgradeRequirements()| ==> score < UpgradeRequirements()[j]
  {
    HighestReached(score, |UpgradeRequirements()|)
  }

  /** A higher score never entitles to a lower level. */
  lemma LevelForScoreMonotone(a: nat, b: nat)
    requires a <= b
    ensures LevelForScore(a) <= LevelForScore(b)
  {
  }

  /** Reaching a threshold exactly entitles to that level. */
  lemma LevelForThreshold(level: nat)
    requires level < |UpgradeRequirements()|
    ensures LevelForScore(UpgradeRequirements()[level]) == level
  {
  }

  /** `getUpgradeLevel`: the raw counter capped at MAX_LEVEL. */
  function CappedLevel(upgradeLevel: nat): (level: nat)
    ensures level <= MAX_LEVEL
    ensures upgradeLevel <= MAX_LEVEL ==> level == upgradeLevel
    ensures upgradeLevel > MAX_LEVEL ==> level == MAX_LEVEL
  {
    if upgradeLevel < MAX_LEVEL then upgradeLevel else MAX_LEVEL
  }

  /** `getNextUpgradeScore`: the threshold of the next level, or None past the table. */
  function NextUpgradeScore(upgradeLevel: nat): (next: Option<nat>)
    ensures next.None? <==> upgradeLevel + 1 >= |UpgradeRequirements()|
    ensures next.Some? ==> next.value > UpgradeRequirements()[upgradeLevel]
  {
    var requirements := UpgradeRequirements();
    var nextLevel := upgradeLevel + 1;
    if nextLevel < |requirements| then Some(requirements[nextLevel]) else None
  }

  /**
   * The announced next threshold is exactly the least score that entitles to
   * a level above the current one: reaching it is enough, and any lower score
   * is not.
   */
  lemma NextUpgradeScoreReached(upgradeLevel: nat, score: nat)
    requires NextUpgradeScore(upgradeLevel).Some?
    ensures LevelForScore(score) > upgradeLevel <==> score >= NextUpgradeScore(upgradeLevel).value
  {
    var next := upgradeLevel + 1;
    var requirements := UpgradeRequirements();
    if score >= requirements[next] {
      LevelForThreshold(next);
      LevelForScoreMonotone(requirements[next], score);
    }
  }

  /** `getEnemySpawnInterval`: frames between spawns, 30 - 4 per level, floored at 10. */
  function EnemySpawnInterval(upgradeLevel: nat): (frames: int)
    ensures 10 <= frames <= 30
    ensures upgradeLevel == 0 ==> frames == 30
    ensures upgradeLevel >= MAX_LEVEL ==> frames == 10
  {
    var baseInterval := 30;
    var level := CappedLevel(upgradeLevel);
    var interval := baseInterval - level * 4;
    if interval < 10 then 10 else interval
  }

  /** Spawning never slows down as the level rises, and speeds up with every level up to the cap. */
  lemma EnemySpawnIntervalNonIncreasing(a: nat, b: nat)
    requires a <= b
    ensures EnemySpawnInterval(b) <= EnemySpawnInterval(a)
    ensures a < b <= MAX_LEVEL ==> EnemySpawnInterval(b) < EnemySpawnInterval(a)
  {
  }

  /** `getEnemySpeedMultiplier`: 1 + 0.3 per level, as an exact rational. */
  function EnemySpeedMultiplier(upgradeLevel: nat): (m: real)
    ensures 1.0 <= m <= 2.5
    ensures upgradeLevel == 0 ==> m == 1.0
  {
    var level := CappedLevel(upgradeLevel);
    1.0 + (level as real) * 0.3
  }

  /** The multiplier grows strictly with every level up to the cap, and never shrinks. */
  lemma EnemySpeedMultiplierIncreasing(a: nat, b: nat)
    requires a <= b
    ensures EnemySpeedMultiplier(a) <= EnemySpeedMultiplier(b)
    ensures a < b <= MAX_LEVEL ==> EnemySpeedMultiplier(a) < EnemySpeedMultiplier(b)
  {
  }

  /** `getSpecialEnemyChance`: 0.15 per level, capped at 0.6. */
  function SpecialEnemyChance(upgradeLevel: nat): (p: real)
    ensures 0.0 <= p <= 0.6
    ensures p == 0.0 <==> upgradeLevel == 0
  {
    var level := CappedLevel(upgradeLevel);
    var chance := (level as real) * 0.15;
    if chance < 0.6 then chance else 0.6
  }

  /**
   * The special chance never shrinks as the level rises and grows strictly up
   * to level 4; from level 4 on it stays at 0.6, so the last level adds nothing.
   */
  lemma SpecialEnemyChanceNonDecreasing(a: nat, b: nat)
    requires a <= b
    ensures SpecialEnemyChance(a) <= SpecialEnemyChance(b)
    ensures a < b <= 4 ==> SpecialEnemyChance(a) < SpecialEnemyChance(b)
    ensures 4 <= a ==> SpecialEnemyChance(a) == SpecialEnemyChance(b) == 0.6
  {
  }
}
