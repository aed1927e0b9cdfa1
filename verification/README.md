# LineApp core, modelled in Dafny

LineApp is a surf-planning web app. Its decision logic is modelled here, one
Dafny module per source file:

- `Forecast` (`lib/forecast.ts`) rates a wave height and a wind speed from 0
  to 100 for each skill level. It starts from 100 and subtracts stacked
  penalties, then clamps the result.
- `Recommendations` (`lib/recommendations.ts`) scores each candidate session.
  The score is a base of 50 plus five sub-scores: level, forecast,
  availability, friends and beach history. It is clamped to 0..100. Sessions
  scoring above 30 are kept, each with its list of reasons, and the result is
  sorted by descending score.
- `Types` (`types/index.ts`) and `Config` (`lib/config.ts`) hold the shared
  records, the four skill levels, the recommendation threshold and the five
  wave-height bands.
- `ForecastDisplay` (`components/ForecastDisplay.tsx`) decides what the
  forecast card shows:
  - the loading view, the "no data" view, or the card itself;
  - the user's suitability;
  - the wave-height category;
  - the red, yellow or green colours;
  - the single recommendation message.
- `Dashboard` (`app/dashboard/page.tsx`) models the dashboard:
  - swipe navigation between the five tabs, and the set of flipped cards, as
    a class whose handlers update its fields;
  - the wind-arrow bearing and the user's suitability;
  - the Good/Fair/Challenging label;
  - the clamps of the three session-finder cards and the day label of the
    scheduled-slot card. The card is guarded by `slot && slot.day`
    (`app/dashboard/page.tsx:736-746`), but the slots the onboarding flow
    stores (`components/OnboardingFlow.tsx:19-23`) carry `dayOfWeek`,
    `startTime` and `endTime` and no `day`, so for such a slot the guard
    fails and the card is not shown. `Dashboard.DayLabel` models the code as
    written: its `slotDay` parameter is `None` for such a slot.
- `BottomNav` (`components/BottomNav.tsx`) decides which of the five
  navigation items is highlighted for a path.
- `BeachSearch` (`app/api/beaches/search/route.ts`) models the beach search
  endpoint:
  - the query-length guard;
  - the case-insensitive substring match over the twelve catalogue beaches,
    on name, region and alternative names;
  - the projection that drops `altNames`.

  `SearchIn` is the search over any catalogue; `Search` is the search over
  `mockBeaches`. The general properties are proved for every catalogue, and
  the concrete ones for `mockBeaches`.
- `Seqs` holds generic sequence helpers: `Filter`, `Map` and the lemmas
  relating them.

The loops and the in-place updates of the source are methods proved against
specification functions:

- `RateForecastForLevel`
- `CalculateSessionScore`
- `GenerateReasons`
- `GenerateSessionRecommendations`
- `SuitabilityColors`
- the handlers of `Dashboard.DashboardState`

The lemmas state what the code promises about those functions.

Three points where the code does less than its own comments or names suggest:

- **Level match.** The comment at `lib/recommendations.ts:43` announces 0-30
  points and the one at line 73 more points when the user's level is within
  the session's range, but `calculateLevelMatch` (lines 69-76) returns a
  flat 25 whatever the level. The model returns 25.
- **Friend factor.** The friend factor counts participant *entries* whose
  user id appears in any history session. A participant listed twice counts
  twice. The count is not of distinct friends.
- **Optimal-band scorer.** The forecast route
  (`app/api/forecasts/[beachId]/route.ts`) has its own scorer with optimal
  bands and a wave-period bonus. That file is not part of this model.

## Model

| member | source | states |
|---|---|---|
| Types.LevelFromKey | lineapp/src/types/index.ts:3-8 | parsing a level string yields a level whose enum value is exactly that string |
| Types.LevelsExhaustive | lineapp/src/types/index.ts:3-8 | there are exactly four distinct levels, and every level's string parses back to that level |
| Types.SuitabilityExtensional | lineapp/src/types/index.ts:109-114 | a suitability record is determined by its four per-level scores |
| Types.SuitabilityFor | lineapp/src/types/index.ts:109-114 | the entry of a `LevelSuitability` record for one level; `SuitabilityExtensional` shows the four entries determine the record |
| Config.BandsContiguous | lineapp/src/lib/config.ts:27-33 | five bands: the first starts at 0, each ends where the next begins, and the last is unbounded |
| Config.ExactlyOneBand | lineapp/src/lib/config.ts:28-32 | every non-negative height lies in exactly one band, and a negative height lies in none |
| Forecast.Clamp | lineapp/src/lib/forecast.ts:44 | the result lies in [lo, hi]; it equals x inside the range, lo below it, hi above it |
| Forecast.WindPenalty | lineapp/src/lib/forecast.ts:40-41 | the penalty is 0 iff wind ≤ 20 kn, 15 iff 20 < wind ≤ 30, and 50 iff wind > 30 (the two penalties stack) |
| Forecast.WavePenalty | lineapp/src/lib/forecast.ts:15-37 | the sum of the stacked wave-height penalties of the level's `switch` case; `BeginnerPenaltiesStack`, `IntermediateSmallWaves`, `RatingFloors` and `SweetSpot` state its values |
| Forecast.Rating | lineapp/src/lib/forecast.ts:7-45 | every rating lies in 0..100 |
| Forecast.RateForecastForLevel | lineapp/src/lib/forecast.ts:7-45 | the step-by-step subtraction returns the rating of the specification function, which lies in 0..100 |
| Forecast.GenerateLevelSuitability | lineapp/src/lib/forecast.ts:50-60 | each level's entry is that level's rating, and every entry lies in 0..100 |
| Forecast.BeginnerPenaltiesStack | lineapp/src/lib/forecast.ts:16-19 | above 4 ft a beginner loses 80 points (30 + 50 stacked), so the rating is 20 in calm wind |
| Forecast.IntermediateSmallWaves | lineapp/src/lib/forecast.ts:22-24 | an intermediate loses 25 below 1 ft (both small-wave penalties) and 10 on [1, 2) ft |
| Forecast.WindLowersEveryLevelAlike | lineapp/src/lib/forecast.ts:39-44 | wind ≤ 20 kn changes nothing; otherwise the rating is the calm-wind rating minus the wind penalty, clamped |
| Forecast.RatingNonIncreasingInWind | lineapp/src/lib/forecast.ts:39-44 | more wind never raises a rating |
| Forecast.RatingFloors | lineapp/src/lib/forecast.ts:29-35 | experts never fall below 45 and advanced surfers never below 35 |
| Forecast.LowerClampReached | lineapp/src/lib/forecast.ts:44 | the lower clamp is reached: 5 ft in 35 kn gives a beginner 0, and 9 ft in 35 kn gives an intermediate 0 |
| Forecast.SweetSpot | lineapp/src/lib/forecast.ts:12-44 | 2–3 ft in wind ≤ 20 kn rates 100 for every level |
| Forecast.RatingExamples | lineapp/src/lib/forecast.ts:7-45 | the worked values: 80, 20, 85 and 50 for the four sample inputs |
| Recommendations.ThresholdIsConfigured | lineapp/src/lib/recommendations.ts:19 | the hard-coded keep threshold 30 equals the configured `RECOMMENDATION_MIN_SCORE` |
| Recommendations.LevelMatch | lineapp/src/lib/recommendations.ts:69-76 | `calculateLevelMatch`; `LevelMatchIsConstant` states it is 25 for every user and session |
| Recommendations.LevelMatchIsConstant | lineapp/src/lib/recommendations.ts:69-76 | the level sub-score is 25 whatever the user and session |
| Recommendations.ForecastMatch | lineapp/src/lib/recommendations.ts:78-83 | no forecast gives 0; otherwise four times the result is the suitability at the session's minimum level (with 0 standing for a missing entry) |
| Recommendations.ForecastMatchBounds | lineapp/src/lib/recommendations.ts:78-83 | a suitability in 0..100 yields a forecast sub-score in 0..25 |
| Recommendations.FieldBeforeColon | lineapp/src/lib/recommendations.ts:95-96 | the first field is a colon-free prefix of the time, and it is followed by ':' when it is shorter than the time |
| Recommendations.LeadingHourOfHHmm | lineapp/src/lib/recommendations.ts:95-96 | for an "HH:mm" string, the parsed start/end hour is the value of its two leading digits |
| Recommendations.SlotCovers | lineapp/src/lib/recommendations.ts:92-98 | the slot test of the `some`: same weekday and start hour ≤ session hour < end hour, false when a bound is NaN; `ValidSlotCovers` and `AvailabilityHourBoundary` state it on well-formed times |
| Recommendations.ValidSlotCovers | lineapp/src/lib/recommendations.ts:92-98 | on a slot with a weekday in 0..6 and "HH:mm" times, the slot covers a session iff the weekdays agree and the session hour lies in [start hour, end hour) read from the two-digit hour fields |
| Recommendations.AnySlotCovers | lineapp/src/lib/recommendations.ts:92-99 | true iff some slot has the session's day and start hour ≤ session hour < end hour |
| Recommendations.AvailabilityMatch | lineapp/src/lib/recommendations.ts:85-102 | the sub-score is 20 iff some slot covers the session, and 0 otherwise |
| Recommendations.AvailabilityHourBoundary | lineapp/src/lib/recommendations.ts:92-98 | with a Saturday 06:00–12:00 slot, hour 11 counts, and hours 12 and 5 do not |
| Recommendations.FriendFactor | lineapp/src/lib/recommendations.ts:104-111 | min(25, 8 × the number of participants seen in the history); in 0..25; 0 iff no participant appears in any history session |
| Recommendations.DuplicateFriendCountsTwice | lineapp/src/lib/recommendations.ts:106-110 | a friend listed twice in a session contributes 16 points |
| Recommendations.HistoryMatch | lineapp/src/lib/recommendations.ts:113-117 | min(10, 2 × the number of history sessions at the beach); in 0..10; 0 iff none was at this beach |
| Recommendations.ClampScore | lineapp/src/lib/recommendations.ts:66 | the result lies in [0, 100]; it equals the input inside the range, 100 above it, 0 below it |
| Recommendations.RawScore | lineapp/src/lib/recommendations.ts:41-64 | the base 50 plus the five sub-scores, before the clamp; `SessionScore` states the clamped score equals it when it lies in 0..100, and `ScoreAtLeast75` that the clamped score is at least 75 when the minimum-level suitability is non-negative |
| Recommendations.SessionScore | lineapp/src/lib/recommendations.ts:37-67 | the score lies in 0..100 and equals the raw sum whenever the sum does |
| Recommendations.CalculateSessionScore | lineapp/src/lib/recommendations.ts:37-67 | the accumulating method returns the specification score, which lies in 0..100 |
| Recommendations.ScoreAtLeast75 | lineapp/src/lib/recommendations.ts:41-66 | base 50 plus the constant 25 makes every session score at least 75 (suitability non-negative) |
| Recommendations.VisitedBeachMeans | lineapp/src/lib/recommendations.ts:132-133 | "often surf this beach" means that at least one history session is at this beach |
| Recommendations.Reasons | lineapp/src/lib/recommendations.ts:119-136 | each reason appears iff its own condition holds (score > 80, score > 60, suitability > 75, a visit), reasons come in the source's order, and there are no others |
| Recommendations.PushedMembers | lineapp/src/lib/recommendations.ts:119-136 | each of the four texts is pushed iff its own test holds, and nothing else is pushed |
| Recommendations.PushedOrdered | lineapp/src/lib/recommendations.ts:119-136 | whatever the four tests give, the pushed texts keep the push order |
| Recommendations.PerfectImpliesGood | lineapp/src/lib/recommendations.ts:126-127 | a "Perfect" reason always comes with "Good", and the two lead the list |
| Recommendations.GenerateReasons | lineapp/src/lib/recommendations.ts:119-136 | the pushing method returns the specified reason list |
| Recommendations.CandidatesMembership | lineapp/src/lib/recommendations.ts:17-28 | a recommendation is collected iff it is the recommendation of an input session whose score exceeds 30 |
| Recommendations.CandidatesStep | lineapp/src/lib/recommendations.ts:17-28 | one loop iteration appends the session's recommendation exactly when its score exceeds 30 |
| Recommendations.Candidates | lineapp/src/lib/recommendations.ts:17-28 | the pushed recommendations, in input order; `CandidatesMembership` states a recommendation is present iff an input session scores above 30 and produced it |
| Recommendations.GenerateSessionRecommendations | lineapp/src/lib/recommendations.ts:11-32 | the loop returns the sorted candidates; the result is sorted by descending score, and every score lies in (30, 100] |
| Recommendations.InsertIsPermutation | lineapp/src/lib/recommendations.ts:31 | inserting adds exactly the inserted element |
| Recommendations.InsertKeepsOrder | lineapp/src/lib/recommendations.ts:31 | inserting into a descending list keeps it descending |
| Recommendations.InsertKeepsTies | lineapp/src/lib/recommendations.ts:31 | the new element goes after every equal-score element already present |
| Recommendations.SortByScoreDesc | lineapp/src/lib/recommendations.ts:31 | the insertion sort standing in for `sort((a, b) => b.score - a.score)`; `SortIsStableDescending` states it is descending, a permutation and stable, and `StableSortIsUnique` that no other order has these properties |
| Recommendations.SortIsStableDescending | lineapp/src/lib/recommendations.ts:31 | the sort is descending, a permutation, and stable: equal scores keep their input order |
| Recommendations.HeadIsHighest | lineapp/src/lib/recommendations.ts:31 | the first element of a sorted list has the highest score present |
| Recommendations.StableSortIsUnique | lineapp/src/lib/recommendations.ts:31 | two descending lists with the same per-score subsequences are equal, so the stable sort's output is unique |
| Recommendations.RecommendationsArePermutedCandidates | lineapp/src/lib/recommendations.ts:11-32 | sorting neither adds nor drops a candidate |
| Recommendations.Recommendations | lineapp/src/lib/recommendations.ts:11-32 | `generateSessionRecommendations` as a function: the sorted candidates; `RecommendationsSpec` states its membership, validity, order and stability |
| Recommendations.RecommendationsSpec | lineapp/src/lib/recommendations.ts:11-32 | the result holds exactly the recommendations of sessions scoring above 30; each is valid and names an input session; it is sorted descending and stable |
| Recommendations.NothingFiltered | lineapp/src/lib/recommendations.ts:11-32 | with non-negative suitabilities, every session is recommended, and each carries the "Good" reason |
| Recommendations.SingleSession | lineapp/src/lib/recommendations.ts:11-32 | one session yields its recommendation if it scores above 30, and nothing otherwise |
| Recommendations.ScenarioSubScores | lineapp/src/lib/recommendations.ts:41-64 | in the Saturday-morning beach-B1 scenario, the sub-scores are 25, 20, 20, 8 and 6 |
| Recommendations.ScenarioReasons | lineapp/src/lib/recommendations.ts:119-136 | in that scenario, a score of 100 earns all four reasons, in push order |
| Recommendations.EndToEndScenario | lineapp/src/lib/recommendations.ts:11-32 | in that scenario, the raw sum is 129; it is clamped to 100 and recommended with all four reasons |
| ForecastDisplay.FindCategory | lineapp/src/components/ForecastDisplay.tsx:28-30 | the result is undefined iff no band holds the height; otherwise it is the first band, in table order, that holds it |
| ForecastDisplay.WaveCategoryOf | lineapp/src/components/ForecastDisplay.tsx:28-30 | the `find` over the five bands of `WAVE_HEIGHT_CATEGORIES`; `WaveCategoryDefinedIffNonNegative` states a category exists iff the height is ≥ 0 and is the unique band holding it |
| ForecastDisplay.WaveCategoryDefinedIffNonNegative | lineapp/src/components/ForecastDisplay.tsx:28-30 | a category is shown iff the height is non-negative, and it is the only band holding the height |
| ForecastDisplay.CategoryOfBand | lineapp/src/components/ForecastDisplay.tsx:28-30 | a height inside band k is shown with band k |
| ForecastDisplay.CategoryExamples | lineapp/src/components/ForecastDisplay.tsx:28-30 | band edges belong to the upper band (1 → Small, 3 → Medium, 10 → Huge), and a negative height has no category |
| ForecastDisplay.UserSuitability | lineapp/src/components/ForecastDisplay.tsx:25 | for a valid suitability record, the user's score lies in 0..100 |
| ForecastDisplay.TierOf | lineapp/src/components/ForecastDisplay.tsx:33-41 | the colour tier of a score; `TierBoundaries` states green iff ≥ 70, yellow iff in [50, 70), red iff < 50, and `SuitabilityColors` that the overwriting `if`s give that tier's colours |
| ForecastDisplay.TierBoundaries | lineapp/src/components/ForecastDisplay.tsx:33-41 | green iff ≥ 70, yellow iff on [50, 70), red iff < 50 |
| ForecastDisplay.SuitabilityColors | lineapp/src/components/ForecastDisplay.tsx:33-41 | the overwritten colour pair is the palette of the score's tier, and the text is non-red iff the score is ≥ 50 |
| ForecastDisplay.Messages | lineapp/src/components/ForecastDisplay.tsx:107-109 | the messages the three `&&` guards render; `ExactlyOneMessage` states there is exactly one and it is the message of the score's tier |
| ForecastDisplay.ExactlyOneMessage | lineapp/src/components/ForecastDisplay.tsx:107-109 | the three independent guards always render exactly one message, the one of the colour tier, and the three texts differ |
| ForecastDisplay.Render | lineapp/src/components/ForecastDisplay.tsx:16-41 | what `ForecastDisplay` shows; `RenderSpec` states loading first, then the missing-forecast message, then the card with its score, category, tier and message |
| ForecastDisplay.RenderSpec | lineapp/src/components/ForecastDisplay.tsx:16-41 | loading wins over a missing forecast; a card appears iff the view is not loading and a forecast exists; the card shows the level's score, the category of the wave height (present iff the height is ≥ 0), the tier of that score, and the single message of that tier |
| Dashboard.TabIndex | lineapp/src/app/dashboard/page.tsx:18 | every tab is in the tab list, at the returned index |
| Dashboard.TabIndexOfTab | lineapp/src/app/dashboard/page.tsx:18 | the tab at position i has index i (no repeats) |
| Dashboard.SwipeTarget | lineapp/src/app/dashboard/page.tsx:30-48 | with a start or end that is null or 0, nothing changes; a swipe of more than 50 px moves one tab right (stopping at the last), of less than −50 px one tab left (stopping at the first), and anything else nothing |
| Dashboard.SwipeLeftThenRight | lineapp/src/app/dashboard/page.tsx:30-48 | a left swipe followed by the reverse swipe returns to the starting tab, except from the last tab |
| Dashboard.SwipeWalk | lineapp/src/app/dashboard/page.tsx:30-48 | the worked swipes: a move to the next tab, a stop at the last tab, a move that stays at the first tab, a short swipe, and a 0 start |
| Dashboard.Toggled | lineapp/src/app/dashboard/page.tsx:50-60 | the card's membership flips, and every other card keeps its state |
| Dashboard.ToggleTwice | lineapp/src/app/dashboard/page.tsx:50-60 | flipping a card twice restores the set |
| Dashboard.ToggleCommutes | lineapp/src/app/dashboard/page.tsx:50-60 | flips of two cards commute |
| Dashboard.DashboardState.constructor | lineapp/src/app/dashboard/page.tsx:13-16 | the initial state: the conditions tab, no flipped cards, and no touch coordinates |
| Dashboard.DashboardState.OnTouchStart | lineapp/src/app/dashboard/page.tsx:21-24 | clears the end, records the start, and keeps the tab and the cards |
| Dashboard.DashboardState.OnTouchMove | lineapp/src/app/dashboard/page.tsx:26-28 | records the end and changes nothing else |
| Dashboard.DashboardState.OnTouchEnd | lineapp/src/app/dashboard/page.tsx:30-48 | the active tab becomes the swipe target of the old tab and the recorded touches, and nothing else changes |
| Dashboard.DashboardState.ToggleCardFlip | lineapp/src/app/dashboard/page.tsx:50-60 | the flipped set becomes the old set with the card toggled, and nothing else changes |
| Dashboard.DirectionDegrees | lineapp/src/app/dashboard/page.tsx:101-110 | the bearing lies in [0, 360), and an absent direction, or one that is not an own key of the table, gives 0 (inherited `Object.prototype` keys: see Left out) |
| Dashboard.DirectionIsOppositeBearing | lineapp/src/app/dashboard/page.tsx:103-108 | each of the 16 compass points maps to its own bearing plus 180° (mod 360), so the arrow points downwind |
| Dashboard.DirectionTableKeys | lineapp/src/app/dashboard/page.tsx:103-108 | the table lists exactly the 16 compass points |
| Dashboard.DirectionExamples | lineapp/src/app/dashboard/page.tsx:101-110 | N → 180 and S → 0; lower-case, empty and absent directions give 0 |
| Dashboard.GetSuitability | lineapp/src/app/dashboard/page.tsx:113-117 | no forecast, no level or a level that is not one of the four own keys gives 0 (inherited `Object.prototype` keys: see Left out); otherwise the result is that level's entry |
| Dashboard.SuitabilityAgreesWithCard | lineapp/src/app/dashboard/page.tsx:113-117 | for a known level, the dashboard reads the same score as the forecast card |
| Dashboard.LabelFor | lineapp/src/app/dashboard/page.tsx:489-493 | the Good/Challenging/Fair chain on a height and a wind; `LabelTestOrderIrrelevant` states its first two tests are disjoint and `LabelNonIncreasingInWind` that more wind never improves it |
| Dashboard.Label | lineapp/src/app/dashboard/page.tsx:482-493 | the chain on the forecast with the `?? 0` and `?? 20` defaults; `NoForecastIsFair` states the label without a forecast |
| Dashboard.NoForecastIsFair | lineapp/src/app/dashboard/page.tsx:482-493 | without a forecast, the defaults (0 ft, 20 kn) give "Fair" |
| Dashboard.LabelTestOrderIrrelevant | lineapp/src/app/dashboard/page.tsx:489-493 | testing "Challenging" first gives the same label, because the Good and Challenging conditions are disjoint |
| Dashboard.LabelNonIncreasingInWind | lineapp/src/app/dashboard/page.tsx:482-493 | more wind never improves the label |
| Dashboard.ExploreScore | lineapp/src/app/dashboard/page.tsx:780 | the result is the smaller of 99 and score + 5 |
| Dashboard.ChallengeScore | lineapp/src/app/dashboard/page.tsx:800 | the result is the larger of 40 and score − 25 |
| Dashboard.ChillScore | lineapp/src/app/dashboard/page.tsx:820 | the result is the smaller of 99 and score + 10 |
| Dashboard.ChillHeight | lineapp/src/app/dashboard/page.tsx:809 | the result is the larger of 1 ft and height − 0.5 |
| Dashboard.FinderRanges | lineapp/src/app/dashboard/page.tsx:780-820 | for scores in 0..100 the cards show 5..99, 40..75 and 10..99, and each is monotone in the score |
| Dashboard.IndexOf | lineapp/src/app/dashboard/page.tsx:740 | −1 iff the day is absent; otherwise the first position holding it |
| Dashboard.Abbreviation | lineapp/src/app/dashboard/page.tsx:743 | the abbreviation is a prefix of the day, of length min(3, length) |
| Dashboard.DayLabel | lineapp/src/app/dashboard/page.tsx:736-746 | a label (and so a card) appears iff the slot has a non-empty day |
| Dashboard.DaysDistinct | lineapp/src/app/dashboard/page.tsx:738 | the seven day names are distinct |
| Dashboard.DayIndex | lineapp/src/app/dashboard/page.tsx:738-740 | the index of day d is d |
| Dashboard.DayLabelByIndex | lineapp/src/app/dashboard/page.tsx:740-743 | for a day of at least three letters found at index i: "Today" iff i is today; "Tomorrow" iff i is (today + 1) mod 7; otherwise the first three letters |
| Dashboard.WeekdayLabel | lineapp/src/app/dashboard/page.tsx:736-743 | each of the seven day names is "Today" iff it is today's weekday, "Tomorrow" iff it is the next one, and otherwise its first three letters |
| Dashboard.UnknownDayIsAbbreviated | lineapp/src/app/dashboard/page.tsx:740-743 | a day not in the list is never Today or Tomorrow; it is shown abbreviated |
| BottomNav.ItemOrder | lineapp/src/components/BottomNav.tsx:6-67 | the five items render as home, beaches, feed, sessions, more |
| BottomNav.IsActive | lineapp/src/components/BottomNav.tsx:76 | `isActive`: the path equals the href, or the href is not the dashboard and prefixes the path; `ActiveMeansPrefix` and `PrefixWithoutSegmentBoundary` state its consequences |
| BottomNav.Active | lineapp/src/components/BottomNav.tsx:76-78 | `isHome` or `isActive`; `HomeFlagRedundant` states it equals `isActive` on the five items, and `AtMostOneActive` that at most one item is highlighted |
| BottomNav.HomeFlagRedundant | lineapp/src/components/BottomNav.tsx:76-78 | `isHome` implies `isActive`, so the highlight equals `isActive` |
| BottomNav.HomeOnlyOnDashboard | lineapp/src/components/BottomNav.tsx:76-78 | Home is highlighted iff the path is exactly "/dashboard" |
| BottomNav.PrefixWithoutSegmentBoundary | lineapp/src/components/BottomNav.tsx:76 | the prefix test ignores segments: "/feedback" and "/feed/42" highlight Feed; "/dashboard/settings" and "/" do not highlight Home |
| BottomNav.ActiveMeansPrefix | lineapp/src/components/BottomNav.tsx:76-78 | a highlighted item's href is a prefix of the path |
| BottomNav.HrefsPrefixFree | lineapp/src/components/BottomNav.tsx:6-67 | no item's href is a prefix of another's |
| BottomNav.AtMostOneActive | lineapp/src/components/BottomNav.tsx:75-78 | for any path, at most one item is highlighted |
| BeachSearch.Summary | lineapp/src/app/api/beaches/search/route.ts:140 | the summary keeps every field except `altNames` unchanged |
| BeachSearch.ToLower | lineapp/src/app/api/beaches/search/route.ts:127 | lower-casing keeps the length and maps each character on its own |
| BeachSearch.ToLowerIdempotent | lineapp/src/app/api/beaches/search/route.ts:127 | lower-casing twice is lower-casing once, and leaves no upper-case ASCII letter |
| BeachSearch.IncludesIsSubstring | lineapp/src/app/api/beaches/search/route.ts:131 | `includes` holds iff the needle occurs at some offset |
| BeachSearch.IncludedCharsOccur | lineapp/src/app/api/beaches/search/route.ts:131 | every character of an included needle occurs in the haystack |
| BeachSearch.IncludesSelf | lineapp/src/app/api/beaches/search/route.ts:131 | every string includes itself |
| BeachSearch.Includes | lineapp/src/app/api/beaches/search/route.ts:131 | `String.prototype.includes`; `IncludesIsSubstring` states it holds iff the needle occurs at some offset |
| BeachSearch.Matches | lineapp/src/app/api/beaches/search/route.ts:129-137 | the filter callback: name, region or some alternative name includes the lowered query; `SearchMembership` and `FieldsMiss` state it |
| BeachSearch.SearchIn | lineapp/src/app/api/beaches/search/route.ts:11-140 | the handler over a given catalogue: the length guard, then filter and projection; `ShortQueryFindsNothing`, `SearchMembership`, `SearchKeepsCatalogueOrder` and `CaseInsensitive` state it |
| BeachSearch.Search | lineapp/src/app/api/beaches/search/route.ts:16-140 | the handler over the twelve `mockBeaches`; `SearchHasNoDuplicates` and `TelAvivSearch` state it |
| BeachSearch.ShortQueryFindsNothing | lineapp/src/app/api/beaches/search/route.ts:11-13 | over any catalogue, a missing query, or one shorter than 2 characters, returns [] |
| BeachSearch.SearchMembership | lineapp/src/app/api/beaches/search/route.ts:127-140 | over any catalogue, a summary is returned iff it summarises a catalogue beach whose name, region or an alternative name includes the lowered query |
| BeachSearch.SearchKeepsCatalogueOrder | lineapp/src/app/api/beaches/search/route.ts:129-140 | over any catalogue, result k summarises the catalogue entry at index ix[k], and the indices increase strictly: the results are a subsequence in catalogue order |
| BeachSearch.CatalogueIdsDistinct | lineapp/src/app/api/beaches/search/route.ts:16-125 | the twelve catalogue ids are distinct |
| BeachSearch.SearchInHasNoDuplicates | lineapp/src/app/api/beaches/search/route.ts:127-140 | over a catalogue with distinct ids, no id is returned twice |
| BeachSearch.SearchHasNoDuplicates | lineapp/src/app/api/beaches/search/route.ts:16-140 | for any query, searching `mockBeaches` returns no id twice |
| BeachSearch.CaseInsensitive | lineapp/src/app/api/beaches/search/route.ts:127 | over any catalogue, queries that lower-case alike return the same results |
| BeachSearch.NoVNoTelAviv | lineapp/src/app/api/beaches/search/route.ts:131 | a text without 'v' or 'V' never includes "tel aviv" |
| BeachSearch.ShortFieldMisses | lineapp/src/app/api/beaches/search/route.ts:131 | a field shorter than the query never includes it |
| BeachSearch.FieldsMiss | lineapp/src/app/api/beaches/search/route.ts:129-137 | a beach none of whose name, region or alternative names includes the query does not match it |
| BeachSearch.TelAvivBeachesMatch | lineapp/src/app/api/beaches/search/route.ts:129-137 | Hilton and Gordon match "tel aviv" through their region |
| BeachSearch.TelAvivFilter | lineapp/src/app/api/beaches/search/route.ts:16-137 | filtering `mockBeaches` with "tel aviv" keeps exactly Hilton and Gordon: the other ten beaches miss it |
| BeachSearch.TelAvivSearch | lineapp/src/app/api/beaches/search/route.ts:127-140 | searching "tel aviv" returns exactly Hilton then Gordon |

## Left out

- Rendering is not modelled:
  - React and Next.js plumbing: hooks, effects, JSX markup and CSS classes other than the suitability palette;
  - the icons, the per-level bars of the forecast card, `Link` and `usePathname`.
- The path is a parameter of the `BottomNav` predicates.
- React state updates are asynchronous and batched. `Dashboard.DashboardState` applies each handler's update immediately, so the interleavings of queued updates are not modelled.
- Data loading is not modelled: the forecast and recommendation fetches, `localStorage`, and the user profile. The forecast, the level and the availability slot are parameters.
- The clock is not modelled:
  - `Date.getDay()` and `getHours()` become the session's `scheduledDay` and `scheduledHour` fields, and `today` becomes a parameter;
  - the recommendation `timestamp` and the `createdAt`/`updatedAt` fields are dropped.
- Display formatting is not modelled: unit conversions (feet/metres, knots/km/h, °F/°C), number formatting, and the category emoji.
- `Recommendations.LeadingHourOfHHmm`:
  - hours are read by `Number` only for a run of ASCII digits, where the empty field is 0;
  - any other form `Number` accepts (surrounding whitespace, signs, decimals, exponents, hexadecimal, octal and binary literals such as `0x06`, and `Infinity`) is treated as not a number;
  - such a slot then never matches, as NaN comparisons never hold.
- `ForecastDisplay.UserSuitability` and `Dashboard.GetSuitability` do not model the `|| 0` fallback for NaN entries. The modelled records always hold integers, so there the fallback can only turn 0 into 0.
- `Dashboard.GetSuitability`: only the four own keys of the suitability record are modelled, and every other level string gives 0. In the source a level string naming an `Object.prototype` member (`"constructor"`, `"toString"`) reads that inherited function, which is truthy, so `|| 0` returns the function instead of 0.
- `Dashboard.DirectionDegrees`: only the sixteen own keys of the `directions` table are modelled, and every other direction gives 0. In the source a direction naming an `Object.prototype` member (`"toString"`, `"constructor"`) reads that inherited function, which is truthy, so `|| 0` returns the function instead of 0.
- `BeachSearch.ToLower` lower-cases ASCII letters only. JavaScript's full Unicode case mapping is not modelled. The catalogue's fields are ASCII or Hebrew, which has no case, so lowering them is exact. On the query side it is not: a query character whose Unicode lower case is an ASCII letter is not lowered. For example U+212A KELVIN SIGN lowers to `k` in JavaScript, so `Ash\u212Aelon` finds Ashkelon Beach in the source, while the model keeps U+212A and returns no beach.
- `BeachSearch.ShortQueryFindsNothing`: a query's length is counted in Unicode scalar values, not UTF-16 code units. They differ only for characters outside the Basic Multilingual Plane.
- The search's error path is not modelled: the `try`/`catch` returning HTTP 500 has no reachable cause in the modelled code. The JSON encoding of responses is also left out.
- `Recommendations.Recommendations` sorts with a stable insertion sort that stands in for `Array.prototype.sort`. The ECMAScript standard requires that sort to be stable, so the result is the same list: `StableSortIsUnique` shows a stable descending order is unique.
- The context's `friendSessions` field is never read by the recommender and is carried unused.
- Latitude and longitude are opaque data. No distance computation is modelled.

