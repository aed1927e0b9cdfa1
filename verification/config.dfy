/** Constants of lineapp/src/lib/config.ts that the modelled rules use. */
module Config {

  /** `APP_CONFIG.RECOMMENDATION_MIN_SCORE`. */
  const RecommendationMinScore: int := 30

  /** A band's upper end: a number, or `Infinity` for the last band. */
  datatype UpperBound = Finite(limit: real) | Infinity

  /** One entry of `WAVE_HEIGHT_CATEGORIES`: the half-open band [min, max) and its label (`name`). */
  datatype WaveCategory = WaveCategory(key: string, min: real, max: UpperBound, name: string)

  const Tiny := WaveCategory("TINY", 0.0, Finite(1.0), "Tiny")
  const Small := WaveCategory("SMALL", 1.0, Finite(3.0), "Small")
  const Medium := WaveCategory("MEDIUM", 3.0, Finite(6.0), "Medium")
  const Large := WaveCategory("LARGE", 6.0, Finite(10.0), "Large")
  const Huge := WaveCategory("HUGE", 10.0, Infinity, "Huge")

  /** The bands in declaration order, the order `Object.values` yields them. */
  const WaveHeightCategories: seq<WaveCategory> := [Tiny, Small, Medium, Large, Huge]

  /** `height >= cat.min && height < cat.max`. */
  predicate InBand(c: WaveCategory, heightFt: real)
  {
    c.min <= heightFt && (c.max.Infinity? || heightFt < c.max.limit)
  }

  /** The bands tile [0, Infinity): they start at 0, each ends where the next begins, the last is unbounded. */
  lemma {:induction false} BandsContiguous()
    ensures |WaveHeightCategories| == 5
    ensures WaveHeightCategories[0].min == 0.0
    ensures forall k :: 0 <= k < 4 ==> WaveHeightCategories[k].max == Finite(WaveHeightCategories[k + 1].min)
    ensures WaveHeightCategories[4].max == Infinity
  {
  }

  /** Every non-negative height lies in exactly one band; a negative height lies in none. */
  lemma {:induction false} ExactlyOneBand(heightFt: real)
    ensures heightFt >= 0.0 ==> exists k :: 0 <= k < 5 && InBand(WaveHeightCategories[k], heightFt)
    ensures forall j, k :: 0 <= j < k < 5 && InBand(WaveHeightCategories[j], heightFt)
              ==> !InBand(WaveHeightCategories[k], heightFt)
    ensures heightFt < 0.0 ==> forall k :: 0 <= k < 5 ==> !InBand(WaveHeightCategories[k], heightFt)
  {
    BandsContiguous();
    if heightFt >= 0.0 {
      var k := if heightFt < 1.0 then 0 else if heightFt < 3.0 then 1
               else if heightFt < 6.0 then 2 else if heightFt < 10.0 then 3 else 4;
      assert InBand(WaveHeightCategories[k], heightFt);
    }
  }
}
