/**
 * The hidden crash point of a round (`generateCrashMultiplier`).
 *
 * A uniform draw `r` from [0, 1) is cubed, which skews the result towards
 * the low end, scaled by 11, shifted by 1, rounded to hundredths and
 * clamped from below at 1.01. The draw itself (`Math.random`) is a
 * parameter here.
 */
module Crash {
  import opened Rounding

  /** The floor that `Math.max` puts under every crash point. */
  const MinCrash: real := 1.01
  /** The factor applied to the cubed draw. */
  const Spread: real := 11.0
  /** The largest crash point any draw can produce. */
  const MaxCrash: real := 12.0

  function Cube(r: real): real {
    r * r * r
  }

  /** A draw from [0, 1) has its cube in [0, 1). */
  lemma CubeOfDrawBelowOne(r: real)
    requires 0.0 <= r < 1.0
    ensures 0.0 <= Cube(r) < 1.0
  {
    assert 0.0 <= r * r <= r;
    assert r * r * r <= r * r;
  }

  /** Cubing keeps the order of two non-negative values. */
  lemma CubeMonotone(a: real, b: real)
    requires 0.0 <= a <= b
    ensures Cube(a) <= Cube(b)
  {
    assert a * a <= a * b <= b * b;
    assert a * a * a <= b * b * a <= b * b * b;
  }

  /** The crash point the game draws for the random value `r`. */
  function GenerateCrash(r: real): (crash: real)
    requires 0.0 <= r < 1.0
    ensures MinCrash <= crash <= MaxCrash
    ensures IsHundredths(crash)
    ensures crash == MinCrash <==> 1.0 + Cube(r) * Spread < 1.015
    ensures 1.0 + Cube(r) * Spread >= 1.005 ==>
      crash - 0.005 <= 1.0 + Cube(r) * Spread < crash + 0.005
  {
    CubeOfDrawBelowOne(r);
    var rounded := Round2(1.0 + Cube(r) * Spread);
    if rounded < MinCrash then
      assert (MinCrash * 100.0).Floor == 101;
      MinCrash
    else rounded
  }

  /** A larger draw never gives a lower crash point. */
  lemma GenerateCrashMonotone(r1: real, r2: real)
    requires 0.0 <= r1 <= r2 < 1.0
    ensures GenerateCrash(r1) <= GenerateCrash(r2)
  {
    CubeMonotone(r1, r2);
    Round2Monotone(1.0 + Cube(r1) * Spread, 1.0 + Cube(r2) * Spread);
  }

  /** Draws whose scaled cube rounds to 1.00 are all clamped up to 1.01. */
  lemma SmallDrawsClamp(r: real)
    requires 0.0 <= r < 1.0
    requires Cube(r) * Spread < 0.005
    ensures GenerateCrash(r) == MinCrash
  {
    CubeOfDrawBelowOne(r);
    var raw := 1.0 + Cube(r) * Spread;
    assert (raw * 100.0 + 0.5).Floor == 100;
  }
}
