/**
 * The decision rules of the dashboard page (lineapp/src/app/dashboard/page.tsx):
 * swipe navigation between tabs, the flip-card set, the compass arrow, the
 * user's suitability, the Good/Fair/Challenging label and the session-finder
 * cards.
 */
module Dashboard {
  import opened Types
  import ForecastDisplay

  // ---------------------------------------------------------------- tabs

  datatype Tab = ConditionsTab | ForecastTab | WeatherTab | WetsuitTab | MapTab

  /** `tabs`, in swipe order. */
  const Tabs: seq<Tab> := [ConditionsTab, ForecastTab, WeatherTab, WetsuitTab, MapTab]

  /** `minSwipeDistance`. */
  const MinSwipeDistance: real := 50.0

  /** `tabs.indexOf(tab)`: every tab is listed, so the index is never -1. */
  function TabIndex(tab: Tab): (i: nat)
    ensures i < |Tabs| && Tabs[i] == tab
  {
    match tab
    case ConditionsTab => 0
    case ForecastTab => 1
    case WeatherTab => 2
    case WetsuitTab => 3
    case MapTab => 4
  }

  /** The tab list has no repeats, so the index of the tab at `i` is `i`. */
  lemma {:induction false} TabIndexOfTab(i: nat)
    requires i < |Tabs|
    ensures TabIndex(Tabs[i]) == i
  {
  }

  /** `!touchStart || !touchEnd`: a coordinate is missing when it is null or 0. */
  predicate Missing(x: Option<real>)
  {
    x.None? || x.value == 0.0
  }

  /** The tab `onTouchEnd` leaves active. */
  function SwipeTarget(tab: Tab, touchStart: Option<real>, touchEnd: Option<real>): (r: Tab)
    ensures Missing(touchStart) || Missing(touchEnd) ==> r == tab
    ensures !Missing(touchStart) && !Missing(touchEnd) ==>
      var d := touchStart.value - touchEnd.value;
      (d > MinSwipeDistance ==> TabIndex(r) == if TabIndex(tab) < 4 then TabIndex(tab) + 1 else 4)
      && (d < -MinSwipeDistance ==> TabIndex(r) == if TabIndex(tab) > 0 then TabIndex(tab) - 1 else 0)
      && (-MinSwipeDistance <= d <= MinSwipeDistance ==> r == tab)
  {
    if Missing(touchStart) || Missing(touchEnd) then tab
    else
      var distance := touchStart.value - touchEnd.value;
      var i := TabIndex(tab);
      if distance > MinSwipeDistance && i < |Tabs| - 1 then (TabIndexOfTab(i + 1); Tabs[i + 1])
      else if distance < -MinSwipeDistance && i > 0 then (TabIndexOfTab(i - 1); Tabs[i - 1])
      else tab
  }

  /** A left swipe followed by an equally long right swipe comes back, except from the last tab. */
  lemma {:induction false} SwipeLeftThenRight(tab: Tab, x: real, y: real)
    requires x > 0.0 && y > 0.0 && x - y > MinSwipeDistance && tab != MapTab
    ensures SwipeTarget(SwipeTarget(tab, Some(x), Some(y)), Some(y), Some(x)) == tab
  {
    var next := SwipeTarget(tab, Some(x), Some(y));
    TabIndexOfTab(TabIndex(next) - 1);
  }

  /** Swiping left from every tab in turn walks the list in order and stops at the map. */
  lemma {:induction false} SwipeWalk()
    ensures SwipeTarget(ConditionsTab, Some(200.0), Some(100.0)) == ForecastTab
    ensures SwipeTarget(MapTab, Some(200.0), Some(100.0)) == MapTab
    ensures SwipeTarget(ConditionsTab, Some(100.0), Some(200.0)) == ConditionsTab
    ensures SwipeTarget(WeatherTab, Some(100.0), Some(150.0)) == WeatherTab
    ensures SwipeTarget(WeatherTab, Some(0.0), Some(150.0)) == WeatherTab
  {
  }

  /** `toggleCardFlip` on a set value: remove the id if present, add it otherwise. */
  function Toggled(cards: set<string>, cardId: string): (r: set<string>)
    ensures cardId in r <==> cardId !in cards
    ensures forall other :: other != cardId ==> (other in r <==> other in cards)
  {
    if cardId in cards then cards - {cardId} else cards + {cardId}
  }

  /** Flipping a card twice restores the set. */
  lemma {:induction false} ToggleTwice(cards: set<string>, cardId: string)
    ensures Toggled(Toggled(cards, cardId), cardId) == cards
  {
    var once := Toggled(cards, cardId);
    var twice := Toggled(once, cardId);
    forall x ensures x in twice <==> x in cards {
      if x == cardId {
      } else {
      }
    }
  }

  /** Flips of different cards commute. */
  lemma {:induction false} ToggleCommutes(cards: set<string>, a: string, b: string)
    ensures Toggled(Toggled(cards, a), b) == Toggled(Toggled(cards, b), a)
  {
    var ab := Toggled(Toggled(cards, a), b);
    var ba := Toggled(Toggled(cards, b), a);
    forall x ensures x in ab <==> x in ba {
    }
  }

  /** The page's state that the modelled handlers change. */
  class DashboardState {
    var activeTab: Tab
    var flippedCards: set<string>
    var touchStart: Option<real>
    var touchEnd: Option<real>

    /** The page's initial state: the conditions tab, no card flipped, no touch. */
    constructor ()
      ensures activeTab == ConditionsTab && flippedCards == {}
      ensures touchStart == None && touchEnd == None
    {
      activeTab := ConditionsTab;
      flippedCards := {};
      touchStart := None;
      touchEnd := None;
    }

    /** `onTouchStart`: forget the last end point and record the new start. */
    method OnTouchStart(clientX: real)
      modifies this
      ensures touchEnd == None && touchStart == Some(clientX)
      ensures activeTab == old(activeTab) && flippedCards == old(flippedCards)
    {
      touchEnd := None;
      touchStart := Some(clientX);
    }

    /** `onTouchMove`: record the latest end point. */
    method OnTouchMove(clientX: real)
      modifies this
      ensures touchEnd == Some(clientX)
      ensures touchStart == old(touchStart) && activeTab == old(activeTab) && flippedCards == old(flippedCards)
    {
      touchEnd := Some(clientX);
    }

    /** `onTouchEnd`: move one tab on a long enough swipe. */
    method OnTouchEnd()
      modifies this
      ensures activeTab == SwipeTarget(old(activeTab), touchStart, touchEnd)
      ensures touchStart == old(touchStart) && touchEnd == old(touchEnd) && flippedCards == old(flippedCards)
    {
      if Missing(touchStart) || Missing(touchEnd) {
        return;
      }
      var distance := touchStart.value - touchEnd.value;
      var isLeftSwipe := distance > MinSwipeDistance;
      var isRightSwipe := distance < -MinSwipeDistance;
      if isLeftSwipe {
        var currentIndex := TabIndex(activeTab);
        if currentIndex < |Tabs| - 1 {
          activeTab := Tabs[currentIndex + 1];
        }
      }
      if isRightSwipe {
        var currentIndex := TabIndex(activeTab);
        if currentIndex > 0 {
          activeTab := Tabs[currentIndex - 1];
        }
      }
    }

    /** `toggleCardFlip`: copy the set, then delete or add the id. */
    method ToggleCardFlip(cardId: string)
      modifies this
      ensures flippedCards == Toggled(old(flippedCards), cardId)
      ensures activeTab == old(activeTab) && touchStart == old(touchStart) && touchEnd == old(touchEnd)
    {
      var next := flippedCards;
      if cardId in next {
        next := next - {cardId};
      } else {
        next := next + {cardId};
      }
      flippedCards := next;
    }
  }

  // ------------------------------------------------------- compass arrow

  /** The sixteen compass points, clockwise from north, 22.5 degrees apart. */
  const CompassPoints: seq<string> :=
    ["N", "NNE", "NE", "ENE", "E", "ESE", "SE", "SSE", "S", "SSW", "SW", "WSW", "W", "WNW", "NW", "NNW"]

  /** The `directions` table of `getDirectionDegrees`. */
  const DirectionTable: map<string, real> := map[
    "N" := 180.0, "NNE" := 202.5, "NE" := 225.0, "ENE" := 247.5,
    "E" := 270.0, "ESE" := 292.5, "SE" := 315.0, "SSE" := 337.5,
    "S" := 0.0, "SSW" := 22.5, "SW" := 45.0, "WSW" := 67.5,
    "W" := 90.0, "WNW" := 112.5, "NW" := 135.0, "NNW" := 157.5]

  /** `getDirectionDegrees`: 0 for a missing or empty direction and for one that is not an own key of the table. */
  function DirectionDegrees(dir: Option<string>): (r: real)
    ensures 0.0 <= r < 360.0
    ensures dir.None? || dir.value !in DirectionTable ==> r == 0.0
  {
    if dir.None? || dir.value == "" then 0.0
    else if dir.value in DirectionTable then DirectionTable[dir.value]
    else 0.0
  }

  /** The point opposite a bearing in [0, 360). */
  function Opposite(bearing: real): real
  {
    if bearing + 180.0 < 360.0 then bearing + 180.0 else bearing - 180.0
  }

  /**
   * The arrow points where the wind blows to: each compass point maps to
   * its bearing plus 180 degrees, modulo 360.
   */
  lemma {:induction false} DirectionIsOppositeBearing(i: nat)
    requires i < |CompassPoints|
    ensures DirectionDegrees(Some(CompassPoints[i])) == Opposite(i as real * 22.5)
  {
    assert |CompassPoints| == 16;
    if i < 4 {
      if i == 0 {} else if i == 1 {} else if i == 2 {} else {}
    } else if i < 8 {
      if i == 4 {} else if i == 5 {} else if i == 6 {} else {}
    } else if i < 12 {
      if i == 8 {} else if i == 9 {} else if i == 10 {} else {}
    } else {
      if i == 12 {} else if i == 13 {} else if i == 14 {} else {}
    }
  }

  /** The table holds exactly the sixteen compass points. */
  lemma {:induction false} DirectionTableKeys()
    ensures DirectionTable.Keys == set p | p in CompassPoints
  {
  }

  /** North points the arrow down (180), south up (0); lower case and unknown names give 0. */
  lemma {:induction false} DirectionExamples()
    ensures DirectionDegrees(Some("N")) == 180.0
    ensures DirectionDegrees(Some("S")) == 0.0
    ensures DirectionDegrees(Some("n")) == 0.0
    ensures DirectionDegrees(Some("")) == 0.0
    ensures DirectionDegrees(None) == 0.0
  {
  }

  // ------------------------------------------------------- suitability

  /**
   * `getSuitability`: 0 without a forecast or without a profile level
   * (an empty string counts as none); otherwise the entry the level string
   * names, and 0 when it names none of the four own keys.
   */
  function GetSuitability(forecast: Option<SurfForecast>, level: Option<string>): (r: int)
    ensures forecast.None? || level.None? ==> r == 0
    ensures forecast.Some? && level.Some? && LevelFromKey(level.value).Some? ==>
      r == SuitabilityFor(forecast.value.suitability, LevelFromKey(level.value).value)
    ensures forecast.Some? && level.Some? && LevelFromKey(level.value).None? ==> r == 0
  {
    if forecast.None? || level.None? || level.value == "" then 0
    else
      match LevelFromKey(level.value)
      case None => 0
      case Some(l) => SuitabilityFor(forecast.value.suitability, l)
  }

  /** The dashboard and the forecast card agree on a profile whose level is a real level. */
  lemma {:induction false} SuitabilityAgreesWithCard(forecast: SurfForecast, level: SurfingLevel)
    ensures GetSuitability(Some(forecast), Some(LevelKey(level))) == ForecastDisplay.UserSuitability(forecast, level)
  {
    LevelsExhaustive(level);
  }

  // ------------------------------------------------ conditions label

  datatype ConditionsLabel = Good | Fair | Challenging

  /** `forecast?.conditions.waveHeightFt ?? 0`. */
  function HeightOrZero(forecast: Option<SurfForecast>): real
  {
    if forecast.Some? then forecast.value.conditions.waveHeightFt else 0.0
  }

  /** `forecast?.conditions.windSpeedKnots ?? 20`. */
  function WindOrTwenty(forecast: Option<SurfForecast>): real
  {
    if forecast.Some? then forecast.value.conditions.windSpeedKnots else 20.0
  }

  /** The label for a wave height and wind speed: Good is checked before Challenging. */
  function LabelFor(heightFt: real, windKnots: real): ConditionsLabel
  {
    if 2.0 <= heightFt <= 5.0 && windKnots < 15.0 then Good
    else if windKnots > 20.0 || heightFt > 6.0 then Challenging
    else Fair
  }

  /** The match indicator of today's card. */
  function Label(forecast: Option<SurfForecast>): ConditionsLabel
  {
    LabelFor(HeightOrZero(forecast), WindOrTwenty(forecast))
  }

  /** Without a forecast the defaults (0 ft, 20 kt) give Fair. */
  lemma {:induction false} NoForecastIsFair()
    ensures Label(None) == Fair
  {
  }

  /**
   * The Good and Challenging regions are disjoint, so testing Challenging
   * first would give the same label.
   */
  lemma {:induction false} LabelTestOrderIrrelevant(heightFt: real, windKnots: real)
    ensures LabelFor(heightFt, windKnots) ==
      (if windKnots > 20.0 || heightFt > 6.0 then Challenging
       else if 2.0 <= heightFt <= 5.0 && windKnots < 15.0 then Good
       else Fair)
  {
  }

  /** How favourable a label is. */
  function LabelRank(l: ConditionsLabel): nat
  {
    match l
    case Challenging => 0
    case Fair => 1
    case Good => 2
  }

  /** More wind at the same height never gives a better label. */
  lemma {:induction false} LabelNonIncreasingInWind(heightFt: real, w1: real, w2: real)
    requires w1 <= w2
    ensures LabelRank(LabelFor(heightFt, w2)) <= LabelRank(LabelFor(heightFt, w1))
  {
  }

  // -------------------------------------------------- session finder

  /** The Explore card: `Math.min(99, getSuitability() + 5)`. */
  function ExploreScore(s: int): (r: int)
    ensures r <= 99 && r <= s + 5 && (r == 99 || r == s + 5)
  {
    if s + 5 < 99 then s + 5 else 99
  }

  /** The Challenge card: `Math.max(40, getSuitability() - 25)`. */
  function ChallengeScore(s: int): (r: int)
    ensures r >= 40 && r >= s - 25 && (r == 40 || r == s - 25)
  {
    if s - 25 > 40 then s - 25 else 40
  }

  /** The Chill card: `Math.min(99, getSuitability() + 10)`. */
  function ChillScore(s: int): (r: int)
    ensures r <= 99 && r <= s + 10 && (r == 99 || r == s + 10)
  {
    if s + 10 < 99 then s + 10 else 99
  }

  /** The Chill card's height: `Math.max(1, baseHeight - 0.5)`. */
  function ChillHeight(baseHeightFt: real): (r: real)
    ensures r >= 1.0 && r >= baseHeightFt - 0.5 && (r == 1.0 || r == baseHeightFt - 0.5)
  {
    if baseHeightFt - 0.5 > 1.0 then baseHeightFt - 0.5 else 1.0
  }

  /**
   * For a percentage suitability the three cards show percentages in
   * fixed ranges: Explore in 5..99, Challenge in 40..75, Chill in 10..99;
   * and the cards keep the order of the suitability they start from.
   */
  lemma {:induction false} FinderRanges(s: int, t: int)
    requires 0 <= s <= 100 && 0 <= t <= 100
    ensures 5 <= ExploreScore(s) <= 99
    ensures 40 <= ChallengeScore(s) <= 75
    ensures 10 <= ChillScore(s) <= 99
    ensures s <= t ==> ExploreScore(s) <= ExploreScore(t) && ChallengeScore(s) <= ChallengeScore(t) && ChillScore(s) <= ChillScore(t)
  {
  }

  // ------------------------------------------------------- day label

  const Days: seq<string> := ["Sunday", "Monday", "Tuesday", "Wednesday", "Thursday", "Friday", "Saturday"]

  /** `days.indexOf(day)`: the first position holding `day`, or -1. */
  function IndexOf(xs: seq<string>, x: string): (r: int)
    ensures -1 <= r < |xs|
    ensures r >= 0 ==> xs[r] == x && forall j :: 0 <= j < r ==> xs[j] != x
    ensures r == -1 <==> x !in xs
  {
    if xs == [] then -1
    else if xs[0] == x then 0
    else
      var r := IndexOf(xs[1..], x);
      if r == -1 then -1 else r + 1
  }

  /** `slot.day.slice(0, 3)`. */
  function Abbreviation(day: string): (r: string)
    ensures r <= day && |r| == if |day| < 3 then |day| else 3
  {
    if |day| < 3 then day else day[..3]
  }

  /**
   * The label of the first availability slot's day, given today's weekday
   * (`getDay()`, 0..6). Only shown when the slot exists with a non-empty
   * day (`slot && slot.day`).
   */
  function DayLabel(slotDay: Option<string>, today: int): (r: Option<string>)
    requires 0 <= today <= 6
    ensures r.Some? <==> slotDay.Some? && slotDay.value != ""
  {
    if slotDay.None? || slotDay.value == "" then None
    else
      var index := IndexOf(Days, slotDay.value);
      if index == today then Some("Today")
      else if index == (today + 1) % 7 then Some("Tomorrow")
      else Some(Abbreviation(slotDay.value))
  }

  /** The seven day names are distinct. */
  lemma {:induction false} DaysDistinct()
    ensures forall j, k :: 0 <= j < k < |Days| ==> Days[j] != Days[k]
  {
    assert Days[0][1] != Days[6][1];
    assert Days[2][1] != Days[4][1];
  }

  /** Every day name is at least six letters long. */
  lemma {:induction false} DayNameLength(d: nat)
    requires d < |Days|
    ensures |Days[d]| >= 6
  {
  }

  /** Each day name is found at its own position. */
  lemma {:induction false} DayIndex(d: nat)
    requires d < |Days|
    ensures IndexOf(Days, Days[d]) == d
  {
    DaysDistinct();
  }

  /**
   * A day found at `index` in the week is labelled "Today" exactly when
   * `index` is today's weekday, "Tomorrow" exactly when it is the next one
   * (Saturday before Sunday), and otherwise by its first three letters.
   * With `DayIndex`, this covers every day name of the list.
   */
  lemma {:induction false} DayLabelByIndex(day: string, today: int, index: int)
    requires 0 <= today <= 6 && |day| >= 3 && IndexOf(Days, day) == index
    ensures DayLabel(Some(day), today) == Some("Today") <==> index == today
    ensures DayLabel(Some(day), today) == Some("Tomorrow") <==> index != today && index == (today + 1) % 7
    ensures index != today && index != (today + 1) % 7 ==> DayLabel(Some(day), today) == Some(day[..3])
  {
    assert |"Today"| == 5 && |"Tomorrow"| == 8;
  }

  /**
   * Every day name of the list is labelled "Today" on its own weekday,
   * "Tomorrow" on the weekday before, and by its first three letters
   * otherwise.
   */
  lemma {:induction false} WeekdayLabel(d: nat, today: int)
    requires d < |Days| && 0 <= today <= 6
    ensures DayLabel(Some(Days[d]), today) == Some("Today") <==> d == today
    ensures DayLabel(Some(Days[d]), today) == Some("Tomorrow") <==> d != today && d == (today + 1) % 7
    ensures d != today && d != (today + 1) % 7 ==> DayLabel(Some(Days[d]), today) == Some(Days[d][..3])
  {
    DayNameLength(d);
    DayIndex(d);
    DayLabelByIndex(Days[d], today, d);
  }

  /** A day name the list lacks is never today or tomorrow. */
  lemma {:induction false} UnknownDayIsAbbreviated(day: string, today: int)
    requires 0 <= today <= 6 && day != "" && day !in Days
    ensures DayLabel(Some(day), today) == Some(Abbreviation(day))
  {
  }
}
