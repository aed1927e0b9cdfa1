/**
 * The decisions of the forecast card (lineapp/src/components/ForecastDisplay.tsx):
 * which view is shown, the user's suitability, the wave-height category,
 * the colour tier and the recommendation message.
 */
module ForecastDisplay {
  import opened Types
  import opened Config

  /**
   * `Object.values(WAVE_HEIGHT_CATEGORIES).find(cat => h >= cat.min && h < cat.max)`:
   * the first category, in table order, whose band holds the height.
   */
  function FindCategory(cats: seq<WaveCategory>, heightFt: real): (r: Option<WaveCategory>)
    ensures r.None? <==> forall k :: 0 <= k < |cats| ==> !InBand(cats[k], heightFt)
    ensures r.Some? ==> exists k :: 0 <= k < |cats| && cats[k] == r.value && InBand(cats[k], heightFt)
                                    && forall j :: 0 <= j < k ==> !InBand(cats[j], heightFt)
  {
    if cats == [] then None
    else if InBand(cats[0], heightFt) then Some(cats[0])
    else
      var rest := FindCategory(cats[1..], heightFt);
      if rest.Some? then
        var k :| 0 <= k < |cats[1..]| && cats[1..][k] == rest.value && InBand(cats[1..][k], heightFt)
                 && forall j :: 0 <= j < k ==> !InBand(cats[1..][j], heightFt);
        assert cats[k + 1] == rest.value;
        assert forall j :: 0 <= j < k + 1 ==> !InBand(cats[j], heightFt) by {
          forall j | 0 <= j < k + 1 ensures !InBand(cats[j], heightFt) {
            if j > 0 { assert cats[j] == cats[1..][j - 1]; }
          }
        }
        rest
      else
        assert forall k :: 0 <= k < |cats| ==> !InBand(cats[k], heightFt) by {
          forall k | 0 <= k < |cats| ensures !InBand(cats[k], heightFt) {
            if k > 0 { assert cats[k] == cats[1..][k - 1]; }
          }
        }
        rest
  }

  /** The category label shown under the wave height. */
  function WaveCategoryOf(heightFt: real): Option<WaveCategory>
  {
    FindCategory(WaveHeightCategories, heightFt)
  }

  /**
   * A non-negative height has a category, and it is the one band holding
   * that height; a negative height has none.
   */
  lemma {:induction false} WaveCategoryDefinedIffNonNegative(heightFt: real)
    ensures WaveCategoryOf(heightFt).Some? <==> heightFt >= 0.0
    ensures WaveCategoryOf(heightFt).Some? ==>
      InBand(WaveCategoryOf(heightFt).value, heightFt) &&
      forall k :: 0 <= k < |WaveHeightCategories| && InBand(WaveHeightCategories[k], heightFt) ==>
        WaveHeightCategories[k] == WaveCategoryOf(heightFt).value
  {
    ExactlyOneBand(heightFt);
    var r := WaveCategoryOf(heightFt);
    if r.Some? {
      var k :| 0 <= k < 5 && WaveHeightCategories[k] == r.value && InBand(WaveHeightCategories[k], heightFt)
               && forall j :: 0 <= j < k ==> !InBand(WaveHeightCategories[j], heightFt);
      forall k' | 0 <= k' < 5 && InBand(WaveHeightCategories[k'], heightFt)
        ensures WaveHeightCategories[k'] == r.value
      {
      }
    }
  }

  /** A height inside band `k` is shown with category `k`. */
  lemma {:induction false} CategoryOfBand(heightFt: real, k: nat)
    requires k < |WaveHeightCategories| && InBand(WaveHeightCategories[k], heightFt)
    ensures WaveCategoryOf(heightFt) == Some(WaveHeightCategories[k])
  {
    WaveCategoryDefinedIffNonNegative(heightFt);
  }

  /** Band edges belong to the upper band: 3 ft is Medium, 1 ft is Small, 10 ft is Huge. */
  lemma {:induction false} CategoryExamples()
    ensures WaveCategoryOf(0.0) == Some(Tiny)
    ensures WaveCategoryOf(1.0) == Some(Small)
    ensures WaveCategoryOf(3.0) == Some(Medium)
    ensures WaveCategoryOf(9.5) == Some(Large)
    ensures WaveCategoryOf(10.0) == Some(Huge)
    ensures WaveCategoryOf(-0.5) == None
  {
    CategoryOfBand(0.0, 0);
    CategoryOfBand(1.0, 1);
    CategoryOfBand(3.0, 2);
    CategoryOfBand(9.5, 3);
    CategoryOfBand(10.0, 4);
    WaveCategoryDefinedIffNonNegative(-0.5);
  }

  /** `forecast.suitability[userLevel] || 0`: the modelled entry is an integer, on which `|| 0` is the identity. */
  function UserSuitability(forecast: SurfForecast, level: SurfingLevel): (s: int)
    ensures ValidSuitability(forecast.suitability) ==> 0 <= s <= 100
  {
    SuitabilityFor(forecast.suitability, level)
  }

  /** The three colour tiers of the suitability badge and message box. */
  datatype Tier = Green | Yellow | Red

  function TierOf(suitability: int): Tier
  {
    if suitability >= 70 then Green else if suitability >= 50 then Yellow else Red
  }

  /** The text colour and background class of each tier. */
  function Palette(t: Tier): (string, string)
  {
    match t
    case Green => ("text-green-600", "bg-green-100")
    case Yellow => ("text-yellow-600", "bg-yellow-100")
    case Red => ("text-red-600", "bg-red-100")
  }

  /** The tiers partition the scores: green from 70, yellow on [50, 70), red below 50. */
  lemma {:induction false} TierBoundaries(suitability: int)
    ensures TierOf(suitability) == Green <==> suitability >= 70
    ensures TierOf(suitability) == Yellow <==> 50 <= suitability < 70
    ensures TierOf(suitability) == Red <==> suitability < 50
    ensures TierOf(70) == Green && TierOf(69) == Yellow && TierOf(50) == Yellow && TierOf(49) == Red
  {
  }

  /** Red by default, then overwritten for the green and the yellow tier. */
  method SuitabilityColors(suitability: int) returns (color: string, bg: string)
    ensures (color, bg) == Palette(TierOf(suitability))
    ensures color != Palette(Red).0 <==> suitability >= 50
  {
    color := "text-red-600";
    bg := "bg-red-100";
    if suitability >= 70 {
      color := "text-green-600";
      bg := "bg-green-100";
    } else if suitability >= 50 {
      color := "text-yellow-600";
      bg := "bg-yellow-100";
    }
  }

  const PerfectMessage: string := "🤙 Perfect conditions for your level!"
  const GoodMessage: string := "✨ Pretty good conditions for you."
  const ChallengingMessage: string := "⚠️ Conditions might be challenging for your level."

  /** The message of each tier. */
  function TierMessage(t: Tier): string
  {
    match t
    case Green => PerfectMessage
    case Yellow => GoodMessage
    case Red => ChallengingMessage
  }

  /** The three guarded messages are rendered independently; each guard that holds adds its text. */
  function Messages(suitability: int): seq<string>
  {
    (if suitability >= 70 then [PerfectMessage] else [])
    + (if suitability >= 50 && suitability < 70 then [GoodMessage] else [])
    + (if suitability < 50 then [ChallengingMessage] else [])
  }

  /** Whatever the score, exactly one message shows, and it is the one of the colour tier. */
  lemma {:induction false} ExactlyOneMessage(suitability: int)
    ensures |Messages(suitability)| == 1
    ensures Messages(suitability)[0] == TierMessage(TierOf(suitability))
    ensures PerfectMessage != GoodMessage && GoodMessage != ChallengingMessage && PerfectMessage != ChallengingMessage
  {
    assert |PerfectMessage| == 36 && |GoodMessage| == 33 && |ChallengingMessage| == 50;
  }

  /** What the card shows. */
  datatype View =
    | LoadingView
    | NoDataView
    | ForecastCard(suitability: int, category: Option<WaveCategory>, tier: Tier, messages: seq<string>)

  /** `ForecastDisplay`: loading first, then a missing forecast, then the card. */
  function Render(loading: bool, forecast: Option<SurfForecast>, level: SurfingLevel): View
  {
    if loading then LoadingView
    else if forecast.None? then NoDataView
    else
      var s := UserSuitability(forecast.value, level);
      ForecastCard(s, WaveCategoryOf(forecast.value.conditions.waveHeightFt), TierOf(s), Messages(s))
  }

  /**
   * Loading wins over a missing forecast; a card shows the user's level
   * entry, its height's category, the tier of that entry, and the single
   * message of that tier.
   */
  lemma {:induction false} RenderSpec(loading: bool, forecast: Option<SurfForecast>, level: SurfingLevel)
    ensures loading ==> Render(loading, forecast, level) == LoadingView
    ensures !loading && forecast.None? ==> Render(loading, forecast, level) == NoDataView
    ensures Render(loading, forecast, level).ForecastCard? <==> !loading && forecast.Some?
    ensures Render(loading, forecast, level).ForecastCard? ==>
      var v := Render(loading, forecast, level);
      v.suitability == SuitabilityFor(forecast.value.suitability, level)
      && v.category == WaveCategoryOf(forecast.value.conditions.waveHeightFt)
      && (v.category.Some? <==> forecast.value.conditions.waveHeightFt >= 0.0)
      && v.tier == TierOf(v.suitability)
      && v.messages == [TierMessage(v.tier)]
  {
    if !loading && forecast.Some? {
      var s := UserSuitability(forecast.value, level);
      ExactlyOneMessage(s);
      WaveCategoryDefinedIffNonNegative(forecast.value.conditions.waveHeightFt);
    }
  }
}
