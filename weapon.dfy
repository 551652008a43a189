/**
 * The weapon tiers of the player (js/player/index.js): for each capped upgrade
 * level, the bullets one shot puts on the field, in the order they are pushed
 * onto the bus's bullet list.  A `Shot` is the (x, y, speed, angle) a bullet is
 * initialised with.
 */
module Weapon {
  import opened Difficulty

  datatype Shot = Shot(x: real, y: real, speed: real, angle: real)

  /** The angles (radians) of the three spread tiers, left to right. */
  const SPREAD_ANGLES: seq<real> := [-0.3, -0.15, 0.0, 0.15, 0.3]
  const ENHANCED_SPREAD_ANGLES: seq<real> := [-0.4, -0.2, -0.1, 0.0, 0.1, 0.2, 0.4]
  const MAXIMUM_ANGLES: seq<real> := [-0.5, -0.3, -0.15, -0.05, 0.0, 0.05, 0.15, 0.3, 0.5]

  /**
   * `shootSingle`: one bullet whose centre is over the plane's centre, leaving
   * 10 pixels above the plane straight up at speed 10.
   */
  function SingleShot(px: real, py: real, pw: real, bw: real): (shots: seq<Shot>)
    ensures |shots| == 1
    ensures shots[0].x + bw / 2.0 == px + pw / 2.0
    ensures forall k :: 0 <= k < |shots| ==>
      shots[k].y == py - 10.0 && shots[k].speed == 10.0 && shots[k].angle == 0.0
  {
    [Shot(px + pw / 2.0 - bw / 2.0, py - 10.0, 10.0, 0.0)]
  }

  /** `shootDouble`: two bullets centred at one and two thirds of the plane's width. */
  function DoubleShot(px: real, py: real, pw: real, bw: real): (shots: seq<Shot>)
    ensures |shots| == 2
    ensures shots[0].x + bw / 2.0 == px + pw / 3.0
    ensures shots[1].x + bw / 2.0 == px + 2.0 * pw / 3.0
    ensures forall k :: 0 <= k < |shots| ==>
      shots[k].y == py - 10.0 && shots[k].speed == 10.0 && shots[k].angle == 0.0
  {
    [Shot(px + pw / 3.0 - bw / 2.0, py - 10.0, 10.0, 0.0),
     Shot(px + (pw * 2.0) / 3.0 - bw / 2.0, py - 10.0, 10.0, 0.0)]
  }

  /** `shootTriple`: three bullets centred at a quarter, a half and three quarters of the width. */
  function TripleShot(px: real, py: real, pw: real, bw: real): (shots: seq<Shot>)
    ensures |shots| == 3
    ensures shots[0].x + bw / 2.0 == px + pw / 4.0
    ensures shots[1].x + bw / 2.0 == px + pw / 2.0
    ensures shots[2].x + bw / 2.0 == px + 3.0 * pw / 4.0
    ensures forall k :: 0 <= k < |shots| ==>
      shots[k].y == py - 10.0 && shots[k].speed == 10.0 && shots[k].angle == 0.0
  {
    [Shot(px + pw / 4.0 - bw / 2.0, py - 10.0, 10.0, 0.0),
     Shot(px + pw / 2.0 - bw / 2.0, py - 10.0, 10.0, 0.0),
     Shot(px + (pw * 3.0) / 4.0 - bw / 2.0, py - 10.0, 10.0, 0.0)]
  }

  /** One bullet per angle, all from the same point at the same speed, in list order. */
  function Fan(x: real, y: real, speed: real, angles: seq<real>): seq<Shot>
  {
    seq(|angles|, k requires 0 <= k < |angles| => Shot(x, y, speed, angles[k]))
  }

  /**
   * `shootSpread`: five bullets whose centres are over the plane's centre,
   * 10 pixels above it, at speed 10, fanned out by the five spread angles.
   */
  function SpreadShot(px: real, py: real, pw: real, bw: real): (shots: seq<Shot>)
    ensures |shots| == 5
    ensures forall k :: 0 <= k < |shots| ==>
      shots[k].x + bw / 2.0 == px + pw / 2.0 && shots[k].y == py - 10.0 &&
      shots[k].speed == 10.0 && shots[k].angle == SPREAD_ANGLES[k]
  {
    Fan(px + pw / 2.0 - bw / 2.0, py - 10.0, 10.0, SPREAD_ANGLES)
  }

  /** `shootEnhancedSpread`: seven bullets from the plane's centre at speed 12. */
  function EnhancedSpreadShot(px: real, py: real, pw: real, bw: real): (shots: seq<Shot>)
    ensures |shots| == 7
    ensures forall k :: 0 <= k < |shots| ==>
      shots[k].x + bw / 2.0 == px + pw / 2.0 && shots[k].y == py - 10.0 &&
      shots[k].speed == 12.0 && shots[k].angle == ENHANCED_SPREAD_ANGLES[k]
  {
    Fan(px + pw / 2.0 - bw / 2.0, py - 10.0, 12.0, ENHANCED_SPREAD_ANGLES)
  }

  /** `shootMaximum`: nine bullets from the plane's centre at speed 15. */
  function MaximumShot(px: real, py: real, pw: real, bw: real): (shots: seq<Shot>)
    ensures |shots| == 9
    ensures forall k :: 0 <= k < |shots| ==>
      shots[k].x + bw / 2.0 == px + pw / 2.0 && shots[k].y == py - 10.0 &&
      shots[k].speed == 15.0 && shots[k].angle == MAXIMUM_ANGLES[k]
  {
    Fan(px + pw / 2.0 - bw / 2.0, py - 10.0, 15.0, MAXIMUM_ANGLES)
  }

  /** `shoot`: the tier chosen by the capped level; level 5 and above fire the maximum. */
  function Volley(upgradeLevel: nat, px: real, py: real, pw: real, bw: real): (shots: seq<Shot>)
    ensures var c := CappedLevel(upgradeLevel);
      |shots| == if c <= 2 then c + 1 else 2 * c - 1
  {
    match CappedLevel(upgradeLevel)
    case 0 => SingleShot(px, py, pw, bw)
    case 1 => DoubleShot(px, py, pw, bw)
    case 2 => TripleShot(px, py, pw, bw)
    case 3 => SpreadShot(px, py, pw, bw)
    case 4 => EnhancedSpreadShot(px, py, pw, bw)
    case _ => MaximumShot(px, py, pw, bw)
  }

  /** The speed every bullet of a tier flies at: 10 up to level 3, then 12, then 15. */
  function TierSpeed(upgradeLevel: nat): (speed: real)
    ensures upgradeLevel <= 3 ==> speed == 10.0
    ensures upgradeLevel == 4 ==> speed == 12.0
    ensures upgradeLevel >= 5 ==> speed == 15.0
  {
    match CappedLevel(upgradeLevel)
    case 4 => 12.0
    case 5 => 15.0
    case _ => 10.0
  }

  /**
   * Tiers 0-2 fire straight up from 10 pixels above the plane at speed 10; the
   * bullets lie left to right and each bullet's centre is over the plane.
   */
  lemma ParallelTiersFlyStraight(upgradeLevel: nat, px: real, py: real, pw: real, bw: real)
    requires CappedLevel(upgradeLevel) <= 2
    requires pw > 0.0
    ensures var shots := Volley(upgradeLevel, px, py, pw, bw);
      forall k :: 0 <= k < |shots| ==>
        shots[k].angle == 0.0 && shots[k].speed == 10.0 && shots[k].y == py - 10.0 &&
        px < shots[k].x + bw / 2.0 < px + pw &&
        (k + 1 < |shots| ==> shots[k].x < shots[k + 1].x)
  {
  }

  /**
   * A fan of angles: an odd count, strictly rising from left to right,
   * mirrored about the middle one, which is straight ahead.
   */
  ghost predicate Symmetric(angles: seq<real>)
  {
    |angles| % 2 == 1 && angles[|angles| / 2] == 0.0 &&
    (forall k :: 0 <= k < |angles| ==> angles[k] == -angles[|angles| - 1 - k]) &&
    (forall k :: 0 <= k < |angles| - 1 ==> angles[k] < angles[k + 1])
  }

  /** The angle tables of tiers 3, 4 and 5 are symmetric fans. */
  lemma AngleTablesSymmetric()
    ensures Symmetric(SPREAD_ANGLES) && Symmetric(ENHANCED_SPREAD_ANGLES) && Symmetric(MAXIMUM_ANGLES)
  {
  }

  /** A fan fires every bullet from the same point at the same speed, with the angles in order. */
  lemma FanFollowsAngles(x: real, y: real, speed: real, angles: seq<real>)
    requires Symmetric(angles)
    ensures var shots := Fan(x, y, speed, angles);
      var n := |shots|;
      n % 2 == 1 && shots[n / 2].angle == 0.0 &&
      (forall k :: 0 <= k < n ==>
        shots[k].x == x && shots[k].y == y && shots[k].speed == speed &&
        shots[k].angle == -shots[n - 1 - k].angle) &&
      (forall k :: 0 <= k < n - 1 ==> shots[k].angle < shots[k + 1].angle)
  {
    var shots := Fan(x, y, speed, angles);
    assert forall k :: 0 <= k < |shots| ==> shots[k].angle == angles[k];
  }

  /**
   * Tiers 3-5 fire every bullet from the plane's centre at the tier's speed; the
   * angles rise strictly from left to right, mirror each other about the middle
   * bullet, and the middle bullet flies straight.
   */
  lemma SpreadTiersFanOut(upgradeLevel: nat, px: real, py: real, pw: real, bw: real)
    requires CappedLevel(upgradeLevel) >= 3
    ensures var shots := Volley(upgradeLevel, px, py, pw, bw);
      var n := |shots|;
      n % 2 == 1 && shots[n / 2].angle == 0.0 &&
      (forall k :: 0 <= k < n ==>
        shots[k].x == px + pw / 2.0 - bw / 2.0 && shots[k].y == py - 10.0 &&
        shots[k].speed == TierSpeed(upgradeLevel) &&
        shots[k].angle == -shots[n - 1 - k].angle) &&
      (forall k :: 0 <= k < n - 1 ==> shots[k].angle < shots[k + 1].angle)
  {
    AngleTablesSymmetric();
    var x, y := px + pw / 2.0 - bw / 2.0, py - 10.0;
    if CappedLevel(upgradeLevel) == 3 {
      FanFollowsAngles(x, y, 10.0, SPREAD_ANGLES);
    } else if CappedLevel(upgradeLevel) == 4 {
      FanFollowsAngles(x, y, 12.0, ENHANCED_SPREAD_ANGLES);
    } else {
      FanFollowsAngles(x, y, 15.0, MAXIMUM_ANGLES);
    }
  }

  /** A higher level never fires fewer bullets, nor slower ones. */
  lemma VolleyNeverWeakens(a: nat, b: nat, px: real, py: real, pw: real, bw: real)
    requires a <= b
    ensures |Volley(a, px, py, pw, bw)| <= |Volley(b, px, py, pw, bw)|
    ensures TierSpeed(a) <= TierSpeed(b)
    ensures CappedLevel(a) < CappedLevel(b) ==> |Volley(a, px, py, pw, bw)| < |Volley(b, px, py, pw, bw)|
  {
  }
}
