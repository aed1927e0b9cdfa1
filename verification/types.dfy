/**
 * The value types shared by the scorer, the recommender and the views
 * (lineapp/src/types/index.ts). Only the fields the modelled rules read are
 * kept; dates become the integers the rules extract from them.
 */
module Types {

  datatype Option<T> = None | Some(value: T)

  /** The four skill levels, in increasing order of wave tolerance. */
  datatype SurfingLevel = Beginner | Intermediate | Advanced | Expert

  const AllLevels: seq<SurfingLevel> := [Beginner, Intermediate, Advanced, Expert]

  /** The string value each enum member carries, which is also its key in a suitability record. */
  function LevelKey(level: SurfingLevel): string
  {
    match level
    case Beginner => "beginner"
    case Intermediate => "intermediate"
    case Advanced => "advanced"
    case Expert => "expert"
  }

  /** Reads a level back from its key; any other string is not a level. */
  function LevelFromKey(key: string): (r: Option<SurfingLevel>)
    ensures r.Some? ==> LevelKey(r.value) == key
  {
    if key == "beginner" then Some(Beginner)
    else if key == "intermediate" then Some(Intermediate)
    else if key == "advanced" then Some(Advanced)
    else if key == "expert" then Some(Expert)
    else None
  }

  /** Every level is listed once, and its key reads back as that level. */
  lemma {:induction false} LevelsExhaustive(level: SurfingLevel)
    ensures level in AllLevels
    ensures |AllLevels| == 4
    ensures forall i, j :: 0 <= i < j < |AllLevels| ==> AllLevels[i] != AllLevels[j]
    ensures LevelFromKey(LevelKey(level)) == Some(level)
  {
  }

  datatype SessionStatus = Planned | Active | Completed | Cancelled

  datatype ParticipantStatus = Confirmed | Pending | Declined

  /** One suitability score per level, nothing else. */
  datatype LevelSuitability = LevelSuitability(beginner: int, intermediate: int, advanced: int, expert: int)

  /** `suitability[level]`: the field the level's key names. */
  function SuitabilityFor(s: LevelSuitability, level: SurfingLevel): int
  {
    match level
    case Beginner => s.beginner
    case Intermediate => s.intermediate
    case Advanced => s.advanced
    case Expert => s.expert
  }

  /** A suitability record whose four scores are all percentages. */
  predicate ValidSuitability(s: LevelSuitability)
  {
    forall level :: 0 <= SuitabilityFor(s, level) <= 100
  }

  /** Two records that agree at every level are the same record: one field per level. */
  lemma {:induction false} SuitabilityExtensional(a: LevelSuitability, b: LevelSuitability)
    requires forall level :: SuitabilityFor(a, level) == SuitabilityFor(b, level)
    ensures a == b
  {
    assert SuitabilityFor(a, Beginner) == SuitabilityFor(b, Beginner);
    assert SuitabilityFor(a, Intermediate) == SuitabilityFor(b, Intermediate);
    assert SuitabilityFor(a, Advanced) == SuitabilityFor(b, Advanced);
    assert SuitabilityFor(a, Expert) == SuitabilityFor(b, Expert);
  }

  /** A weekly availability slot; the times are "HH:mm" strings. */
  datatype UserAvailability = UserAvailability(id: string, userId: string, dayOfWeek: int, startTime: string, endTime: string)

  predicate IsDigit(c: char) { '0' <= c <= '9' }

  function DigitValue(c: char): int requires IsDigit(c) { c as int - '0' as int }

  /** The documented "HH:mm" shape: two digits, a colon, two digits. */
  predicate IsHHmm(t: string)
  {
    |t| == 5 && IsDigit(t[0]) && IsDigit(t[1]) && t[2] == ':' && IsDigit(t[3]) && IsDigit(t[4])
  }

  /** Sunday is 0 and Saturday is 6; both times have the documented shape. */
  predicate ValidAvailability(a: UserAvailability)
  {
    0 <= a.dayOfWeek <= 6 && IsHHmm(a.startTime) && IsHHmm(a.endTime)
  }

  datatype ForecastConditions = ForecastConditions(
    waveHeightFt: real,
    wavePeriodSec: real,
    waveDirection: Option<string>,
    windSpeedKnots: real,
    windDirection: string,
    waterTempF: real,
    confidence: int)

  datatype SurfForecast = SurfForecast(id: string, beachId: string, conditions: ForecastConditions, suitability: LevelSuitability)

  datatype SessionParticipant = SessionParticipant(userId: string, status: ParticipantStatus)

  /**
   * A planned session. `scheduledDay` and `scheduledHour` are what
   * `scheduledTime.getDay()` and `scheduledTime.getHours()` return.
   */
  datatype Session = Session(
    id: string,
    creatorId: string,
    beachId: string,
    scheduledDay: int,
    scheduledHour: int,
    estimatedDurationMinutes: int,
    minLevel: SurfingLevel,
    maxLevel: SurfingLevel,
    maxParticipants: int,
    participants: seq<SessionParticipant>,
    status: SessionStatus)

  datatype SessionRecommendation = SessionRecommendation(sessionId: string, score: real, reasons: seq<string>)

  /** A recommendation score is a percentage. */
  predicate ValidRecommendation(r: SessionRecommendation)
  {
    0.0 <= r.score <= 100.0
  }

  datatype RecommendationContext = RecommendationContext(
    userId: string,
    currentForecast: Option<SurfForecast>,
    userAvailability: seq<UserAvailability>,
    userHistory: seq<Session>,
    friendSessions: seq<Session>)
}
