/**
 * The suitability scorer of lineapp/src/lib/forecast.ts: a score out of 100
 * per skill level, lowered by stacked wave-height penalties for that level
 * and by wind penalties shared by every level, then clamped to [0, 100].
 */
module Forecast {
  import opened Types

  /** `Math.max(lo, Math.min(hi, x))`. */
  function Clamp(x: int, lo: int, hi: int): (r: int)
    requires lo <= hi
    ensures lo <= r <= hi
    ensures lo <= x <= hi ==> r == x
    ensures x < lo ==> r == lo
    ensures hi < x ==> r == hi
  {
    if x < lo then lo else if hi < x then hi else x
  }

  /**
   * The total wave-height penalty of a level. Each threshold applies on its
   * own, so penalties stack (a Beginner above 4 ft pays 30 and 50).
   */
  function WavePenalty(heightFt: real, level: SurfingLevel): int
  {
    match level
    case Beginner =>
      (if heightFt < 1.0 then 20 else 0)
      + (if heightFt > 3.0 then 30 else 0)
      + (if heightFt > 4.0 then 50 else 0)
    case Intermediate =>
      (if heightFt < 1.0 then 15 else 0)
      + (if heightFt < 2.0 then 10 else 0)
      + (if heightFt > 6.0 then 20 else 0)
      + (if heightFt > 8.0 then 50 else 0)
    case Advanced =>
      (if heightFt < 1.0 then 10 else 0)
      + (if heightFt > 10.0 then 15 else 0)
    case Expert =>
      (if heightFt < 2.0 then 5 else 0)
  }

  /** The wind penalty, the same for every level: 15 above 20 kt, 35 more above 30 kt. */
  function WindPenalty(windKnots: real): (p: int)
    ensures p == 0 <==> windKnots <= 20.0
    ensures p == 15 <==> 20.0 < windKnots <= 30.0
    ensures p == 50 <==> windKnots > 30.0
  {
    (if windKnots > 20.0 then 15 else 0) + (if windKnots > 30.0 then 35 else 0)
  }

  /** The score `rateForecastForLevel` returns. */
  function Rating(heightFt: real, windKnots: real, level: SurfingLevel): (r: int)
    ensures 0 <= r <= 100
  {
    Clamp(100 - WavePenalty(heightFt, level) - WindPenalty(windKnots), 0, 100)
  }

  /** `rateForecastForLevel`: start at 100, subtract each penalty that applies, clamp. */
  method RateForecastForLevel(heightFt: real, windKnots: real, level: SurfingLevel) returns (score: int)
    ensures 0 <= score <= 100
    ensures score == Rating(heightFt, windKnots, level)
  {
    score := 100;
    match level {
      case Beginner =>
        if heightFt < 1.0 { score := score - 20; }
        if heightFt > 3.0 { score := score - 30; }
        if heightFt > 4.0 { score := score - 50; }
      case Intermediate =>
        if heightFt < 1.0 { score := score - 15; }
        if heightFt < 2.0 { score := score - 10; }
        if heightFt > 6.0 { score := score - 20; }
        if heightFt > 8.0 { score := score - 50; }
      case Advanced =>
        if heightFt < 1.0 { score := score - 10; }
        if heightFt > 10.0 { score := score - 15; }
      case Expert =>
        if heightFt < 2.0 { score := score - 5; }
    }
    if windKnots > 20.0 { score := score - 15; }
    if windKnots > 30.0 { score := score - 35; }
    score := if score < 0 then 0 else if score > 100 then 100 else score;
  }

  /** `generateLevelSuitability`: the four ratings of one set of conditions. */
  function GenerateLevelSuitability(heightFt: real, windKnots: real): (s: LevelSuitability)
    ensures ValidSuitability(s)
    ensures forall level :: SuitabilityFor(s, level) == Rating(heightFt, windKnots, level)
  {
    LevelSuitability(
      Rating(heightFt, windKnots, Beginner),
      Rating(heightFt, windKnots, Intermediate),
      Rating(heightFt, windKnots, Advanced),
      Rating(heightFt, windKnots, Expert))
  }

  /** Penalties stack: a Beginner at 5 ft pays both big-wave penalties and, in 10 kt, scores 20. */
  lemma {:induction false} BeginnerPenaltiesStack(heightFt: real, windKnots: real)
    requires heightFt > 4.0
    ensures WavePenalty(heightFt, Beginner) == 80
    ensures windKnots <= 20.0 ==> Rating(heightFt, windKnots, Beginner) == 20
  {
  }

  /** An Intermediate loses 25 below 1 ft and 10 between 1 and 2 ft. */
  lemma {:induction false} IntermediateSmallWaves(heightFt: real)
    ensures heightFt < 1.0 ==> WavePenalty(heightFt, Intermediate) == 25
    ensures 1.0 <= heightFt < 2.0 ==> WavePenalty(heightFt, Intermediate) == 10
  {
  }

  /**
   * The wind penalty is uniform across levels: at any wind the score is the
   * calm-wind score lowered by the wind penalty, clamped at 0.
   */
  lemma {:induction false} WindLowersEveryLevelAlike(heightFt: real, windKnots: real, level: SurfingLevel)
    ensures windKnots <= 20.0 ==> Rating(heightFt, windKnots, level) == Rating(heightFt, 0.0, level)
    ensures Rating(heightFt, windKnots, level)
         == Clamp(Rating(heightFt, 0.0, level) - WindPenalty(windKnots), 0, 100)
  {
  }

  /** For a fixed height and level, more wind never raises the score. */
  lemma {:induction false} RatingNonIncreasingInWind(heightFt: real, w1: real, w2: real, level: SurfingLevel)
    requires w1 <= w2
    ensures Rating(heightFt, w2, level) <= Rating(heightFt, w1, level)
  {
  }

  /** Experts never score below 45 and Advanced surfers never below 35. */
  lemma {:induction false} RatingFloors(heightFt: real, windKnots: real)
    ensures Rating(heightFt, windKnots, Expert) >= 45
    ensures Rating(heightFt, windKnots, Advanced) >= 35
  {
  }

  /** Beginners and Intermediates, unlike the other two levels, can reach the lower clamp. */
  lemma {:induction false} LowerClampReached()
    ensures Rating(5.0, 35.0, Beginner) == 0
    ensures Rating(9.0, 35.0, Intermediate) == 0
  {
  }

  /** Between 2 and 3 ft in at most 20 kt every level scores 100. */
  lemma {:induction false} SweetSpot(heightFt: real, windKnots: real, level: SurfingLevel)
    requires 2.0 <= heightFt <= 3.0 && windKnots <= 20.0
    ensures Rating(heightFt, windKnots, level) == 100
  {
  }

  /** The worked examples: too flat, stacked big-wave penalties, wind only. */
  lemma {:induction false} RatingExamples()
    ensures Rating(0.5, 10.0, Beginner) == 80
    ensures Rating(5.0, 10.0, Beginner) == 20
    ensures Rating(5.0, 25.0, Advanced) == 85
    ensures Rating(12.0, 35.0, Expert) == 50
  {
  }
}
