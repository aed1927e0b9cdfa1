/**
 * The session recommender of lineapp/src/lib/recommendations.ts
 * (`RecommendationEngine`). A session scores a base of 50 plus five
 * sub-scores, clamped to [0, 100]; sessions scoring above 30 become
 * recommendations with reasons, sorted by score, highest first, with ties
 * kept in input order.
 */
module Recommendations {
  import opened Types
  import opened Seqs
  import Config

  const PerfectReason := "Perfect conditions for your level"
  const GoodReason := "Good wave forecast for your skill"
  const ExcellentReason := "Excellent forecast suitability"
  const FrequentReason := "You often surf this beach"

  /** The order in which reasons are pushed. */
  const ReasonOrder: seq<string> := [PerfectReason, GoodReason, ExcellentReason, FrequentReason]

  /** A session is recommended only when its score is strictly above this. */
  const KeepThreshold: real := 30.0

  /** The hard-coded threshold is the configured minimum score. */
  lemma {:induction false} ThresholdIsConfigured()
    ensures KeepThreshold == Config.RecommendationMinScore as real
  {
  }

  function Min(a: int, b: int): int { if a <= b then a else b }

  // ---------------------------------------------------------------------------
  // 1. Level match

  /** `calculateLevelMatch`: the user and the session's level range are not consulted. */
  function LevelMatch(userId: string, session: Session): real
  {
    25.0
  }

  /** The level match is the same for every user and every session. */
  lemma {:induction false} LevelMatchIsConstant(u1: string, s1: Session, u2: string, s2: Session)
    ensures LevelMatch(u1, s1) == LevelMatch(u2, s2) == 25.0
  {
  }

  // ---------------------------------------------------------------------------
  // 2. Forecast match

  /** `forecast.suitability[session.minLevel] || 0`, and 0 when there is no forecast. */
  function MinLevelSuitability(forecast: Option<SurfForecast>, session: Session): int
  {
    match forecast
    case None => 0
    case Some(f) => SuitabilityFor(f.suitability, session.minLevel)
  }

  /** `calculateForecastMatch`: the minimum level's suitability scaled from 100 down to 25. */
  function ForecastMatch(forecast: Option<SurfForecast>, session: Session): (r: real)
    ensures forecast.None? ==> r == 0.0
    ensures 4.0 * r == MinLevelSuitability(forecast, session) as real
  {
    if forecast.None? then 0.0
    else (MinLevelSuitability(forecast, session) as real / 100.0) * 25.0
  }

  /** A percentage suitability yields between 0 and 25 points. */
  lemma {:induction false} ForecastMatchBounds(forecast: Option<SurfForecast>, session: Session)
    requires 0 <= MinLevelSuitability(forecast, session) <= 100
    ensures 0.0 <= ForecastMatch(forecast, session) <= 25.0
  {
  }

  // ---------------------------------------------------------------------------
  // 3. Availability match

  /** `t.split(':')[0]`: the text before the first colon, or all of `t` when there is none. */
  function FieldBeforeColon(t: string): (f: string)
    ensures f <= t && ':' !in f
    ensures |f| < |t| ==> t[|f|] == ':'
  {
    if t == [] || t[0] == ':' then [] else [t[0]] + FieldBeforeColon(t[1..])
  }

  predicate AllDigits(s: string) { forall i :: 0 <= i < |s| ==> IsDigit(s[i]) }

  /** The decimal value of a run of digits; the empty run is 0. */
  function DigitsValue(ds: string): nat
    requires AllDigits(ds)
  {
    if ds == [] then 0 else 10 * DigitsValue(ds[..|ds| - 1]) + DigitValue(ds[|ds| - 1])
  }

  /**
   * `Number(field)` for the forms the model reads: a run of digits (the
   * empty run included) is its value, anything else is NaN (None).
   */
  function NumberValue(field: string): Option<nat>
  {
    if AllDigits(field) then Some(DigitsValue(field)) else None
  }

  /** `Number(t.split(':')[0])`: the hour of an "HH:mm" time. */
  function LeadingHour(t: string): Option<nat>
  {
    NumberValue(FieldBeforeColon(t))
  }

  /** On a well-formed "HH:mm" time the leading hour is its two-digit hour field. */
  lemma {:induction false} LeadingHourOfHHmm(t: string)
    requires IsHHmm(t)
    ensures LeadingHour(t) == Some(10 * DigitValue(t[0]) + DigitValue(t[1]))
  {
    assert FieldBeforeColon(t[2..]) == [];
    assert FieldBeforeColon(t[1..]) == [t[1]] + FieldBeforeColon(t[2..]);
    assert FieldBeforeColon(t) == [t[0], t[1]];
    var f := [t[0], t[1]];
    assert AllDigits(f);
    assert f[..1] == [t[0]] && [t[0]][..0] == [];
    assert DigitsValue([t[0]]) == DigitValue(t[0]);
    assert DigitsValue(f) == 10 * DigitsValue([t[0]]) + DigitValue(t[1]);
  }

  /**
   * The slot test inside `calculateAvailabilityMatch`: same weekday, and
   * startHour <= sessionHour < endHour on whole hours. A NaN bound fails
   * every comparison, so it never matches.
   */
  predicate SlotCovers(slot: UserAvailability, day: int, hour: int)
  {
    slot.dayOfWeek == day &&
    match (LeadingHour(slot.startTime), LeadingHour(slot.endTime))
    case (Some(startHour), Some(endHour)) => startHour <= hour < endHour
    case _ => false
  }

  /**
   * On a slot of the documented shape both bounds are numbers, so the slot
   * covers exactly the session hours from its start hour up to, but not
   * including, its end hour on its own weekday.
   */
  lemma {:induction false} ValidSlotCovers(slot: UserAvailability, day: int, hour: int)
    requires ValidAvailability(slot)
    ensures SlotCovers(slot, day, hour) <==>
      slot.dayOfWeek == day
      && 10 * DigitValue(slot.startTime[0]) + DigitValue(slot.startTime[1]) <= hour
      && hour < 10 * DigitValue(slot.endTime[0]) + DigitValue(slot.endTime[1])
  {
    LeadingHourOfHHmm(slot.startTime);
    LeadingHourOfHHmm(slot.endTime);
  }

  /** `availability.some(...)`. */
  function AnySlotCovers(availability: seq<UserAvailability>, day: int, hour: int): (b: bool)
    ensures b <==> exists i :: 0 <= i < |availability| && SlotCovers(availability[i], day, hour)
  {
    if availability == [] then false
    else SlotCovers(availability[0], day, hour) || AnySlotCovers(availability[1..], day, hour)
  }

  /** `calculateAvailabilityMatch`: 20 when some slot covers the session's weekday and hour, else 0. */
  function AvailabilityMatch(availability: seq<UserAvailability>, session: Session): (r: int)
    ensures r == 20 <==> exists i :: 0 <= i < |availability| && SlotCovers(availability[i], session.scheduledDay, session.scheduledHour)
    ensures r != 20 ==> r == 0
  {
    if AnySlotCovers(availability, session.scheduledDay, session.scheduledHour) then 20 else 0
  }

  /** Window ends are exclusive on whole hours: 06:00-12:00 covers hour 11 (so 11:59) but not hour 12. */
  lemma {:induction false} AvailabilityHourBoundary(session: Session)
    requires session.scheduledDay == 6
    ensures var slot := UserAvailability("a1", "u1", 6, "06:00", "12:00");
      (session.scheduledHour == 11 ==> AvailabilityMatch([slot], session) == 20) &&
      (session.scheduledHour == 12 ==> AvailabilityMatch([slot], session) == 0) &&
      (session.scheduledHour == 5 ==> AvailabilityMatch([slot], session) == 0)
  {
    var slot := UserAvailability("a1", "u1", 6, "06:00", "12:00");
    LeadingHourOfHHmm("06:00");
    LeadingHourOfHHmm("12:00");
    assert LeadingHour(slot.startTime) == Some(6) && LeadingHour(slot.endTime) == Some(12);
  }

  // ---------------------------------------------------------------------------
  // 4. Friend factor

  /** Whether `userId` took part in some session of the history. */
  predicate SharesSessionWith(history: seq<Session>, userId: string)
  {
    exists i, j :: 0 <= i < |history| && 0 <= j < |history[i].participants| && history[i].participants[j].userId == userId
  }

  /** The filter predicate of `calculateFriendFactor`. */
  function IsFriendIn(history: seq<Session>): SessionParticipant -> bool
  {
    (p: SessionParticipant) => SharesSessionWith(history, p.userId)
  }

  /** `calculateFriendFactor`: 8 points per participant entry seen in the history, at most 25. */
  function FriendFactor(context: RecommendationContext, session: Session): (r: int)
    ensures r == Min(25, 8 * |Positions(session.participants, IsFriendIn(context.userHistory))|)
    ensures 0 <= r <= 25
    ensures r == 0 <==> forall p :: p in session.participants ==> !SharesSessionWith(context.userHistory, p.userId)
  {
    var friends := Filter(session.participants, IsFriendIn(context.userHistory));
    FilterLength(session.participants, IsFriendIn(context.userHistory));
    FilterMembership(session.participants, IsFriendIn(context.userHistory));
    assert friends != [] ==> friends[0] in friends;
    Min(25, |friends| * 8)
  }

  /** Entries are counted, not users: the same friend listed twice earns 16 points. */
  lemma {:induction false} DuplicateFriendCountsTwice(context: RecommendationContext, session: Session, p: SessionParticipant)
    requires session.participants == [p, p]
    requires SharesSessionWith(context.userHistory, p.userId)
    ensures FriendFactor(context, session) == 16
  {
    assert Positions(session.participants, IsFriendIn(context.userHistory)) == {0, 1};
  }

  // ---------------------------------------------------------------------------
  // 5. History match

  /** The filter predicate of `calculateHistoryMatch`. */
  function AtBeach(beachId: string): Session -> bool
  {
    (s: Session) => s.beachId == beachId
  }

  /** `calculateHistoryMatch`: 2 points per past session at the same beach, at most 10. */
  function HistoryMatch(history: seq<Session>, session: Session): (r: int)
    ensures r == Min(10, 2 * |Positions(history, AtBeach(session.beachId))|)
    ensures 0 <= r <= 10
    ensures r == 0 <==> forall s :: s in history ==> s.beachId != session.beachId
  {
    var visits := Filter(history, AtBeach(session.beachId));
    FilterLength(history, AtBeach(session.beachId));
    FilterMembership(history, AtBeach(session.beachId));
    assert visits != [] ==> visits[0] in visits;
    Min(10, |visits| * 2)
  }

  // ---------------------------------------------------------------------------
  // The session score

  /** `Math.min(100, Math.max(0, score))`. */
  function ClampScore(x: real): (r: real)
    ensures 0.0 <= r <= 100.0
    ensures 0.0 <= x <= 100.0 ==> r == x
    ensures x > 100.0 ==> r == 100.0
    ensures x < 0.0 ==> r == 0.0
  {
    if 100.0 < x then 100.0 else if x < 0.0 then 0.0 else x
  }

  /** The unclamped sum: base 50 plus the five sub-scores. */
  function RawScore(context: RecommendationContext, session: Session): real
  {
    50.0
    + LevelMatch(context.userId, session)
    + ForecastMatch(context.currentForecast, session)
    + AvailabilityMatch(context.userAvailability, session) as real
    + FriendFactor(context, session) as real
    + HistoryMatch(context.userHistory, session) as real
  }

  /** The score `calculateSessionScore` returns. */
  function SessionScore(context: RecommendationContext, session: Session): (r: real)
    ensures 0.0 <= r <= 100.0
    ensures 0.0 <= RawScore(context, session) <= 100.0 ==> r == RawScore(context, session)
  {
    ClampScore(RawScore(context, session))
  }

  /** `calculateSessionScore`: accumulate the base and the five sub-scores, then clamp. */
  method CalculateSessionScore(context: RecommendationContext, session: Session) returns (score: real)
    ensures 0.0 <= score <= 100.0
    ensures score == SessionScore(context, session)
  {
    score := 50.0;
    score := score + LevelMatch(context.userId, session);
    score := score + ForecastMatch(context.currentForecast, session);
    score := score + AvailabilityMatch(context.userAvailability, session) as real;
    score := score + FriendFactor(context, session) as real;
    score := score + HistoryMatch(context.userHistory, session) as real;
    score := if 100.0 < score then 100.0 else if score < 0.0 then 0.0 else score;
  }

  /** With a non-negative suitability for the minimum level, every session scores at least 75. */
  lemma {:induction false} ScoreAtLeast75(context: RecommendationContext, session: Session)
    requires MinLevelSuitability(context.currentForecast, session) >= 0
    ensures SessionScore(context, session) >= 75.0
  {
  }

  // ---------------------------------------------------------------------------
  // Reasons

  /** Position of a reason in the push order (4 for any other string). */
  function ReasonRank(reason: string): nat
  {
    if reason == PerfectReason then 0
    else if reason == GoodReason then 1
    else if reason == ExcellentReason then 2
    else if reason == FrequentReason then 3
    else 4
  }

  /** Whether some past session was at the session's beach (`filter(...).length > 0`). */
  predicate VisitedBeach(history: seq<Session>, session: Session)
  {
    |Filter(history, AtBeach(session.beachId))| > 0
  }

  lemma {:induction false} VisitedBeachMeans(history: seq<Session>, session: Session)
    ensures VisitedBeach(history, session) <==> exists i :: 0 <= i < |history| && history[i].beachId == session.beachId
  {
    var visits := Filter(history, AtBeach(session.beachId));
    FilterMembership(history, AtBeach(session.beachId));
    if visits != [] {
      assert visits[0] in visits;
      var i :| 0 <= i < |history| && history[i] == visits[0];
    }
    if exists i :: 0 <= i < |history| && history[i].beachId == session.beachId {
      var i :| 0 <= i < |history| && history[i].beachId == session.beachId;
      assert history[i] in visits;
    }
  }

  /** The four reason texts are distinct, so each has its own rank. */
  lemma {:induction false} ReasonRanks()
    ensures ReasonRank(PerfectReason) == 0 && ReasonRank(GoodReason) == 1
    ensures ReasonRank(ExcellentReason) == 2 && ReasonRank(FrequentReason) == 3
  {
    assert PerfectReason[0] != GoodReason[0];
    assert |ExcellentReason| != |PerfectReason| && |ExcellentReason| != |GoodReason|;
    assert |FrequentReason| != |PerfectReason| && |FrequentReason| != |GoodReason| && |FrequentReason| != |ExcellentReason|;
  }

  /** Texts listed in strictly increasing `rank`. */
  predicate OrderedBy(r: seq<string>, rank: string -> nat)
  {
    forall i, j :: 0 <= i < j < |r| ==> rank(r[i]) < rank(r[j])
  }

  /** Reasons listed in strictly increasing push order. */
  predicate RankOrdered(r: seq<string>)
  {
    OrderedBy(r, ReasonRank)
  }

  /** The reason `x` when its test holds, nothing otherwise. */
  function Opt(test: bool, x: string): seq<string>
  {
    if test then [x] else []
  }

  /** The reasons pushed for the given outcomes of the four tests, in push order. */
  function Pushed(perfect: bool, good: bool, excellent: bool, frequent: bool): seq<string>
  {
    Opt(perfect, PerfectReason) + Opt(good, GoodReason) + Opt(excellent, ExcellentReason)
    + Opt(frequent, FrequentReason)
  }

  /** Each reason is pushed exactly when its test holds, and no other text is. */
  lemma {:induction false} PushedMembers(perfect: bool, good: bool, excellent: bool, frequent: bool)
    ensures var r := Pushed(perfect, good, excellent, frequent);
      && (PerfectReason in r <==> perfect) && (GoodReason in r <==> good)
      && (ExcellentReason in r <==> excellent) && (FrequentReason in r <==> frequent)
      && (forall x :: x in r ==> x in ReasonOrder)
  {
    ReasonRanks();
  }

  /** Every text of `r` ranks below `m`. */
  predicate RanksBelow(r: seq<string>, rank: string -> nat, m: nat)
  {
    forall i :: 0 <= i < |r| ==> rank(r[i]) < m
  }

  /** Optionally appending a text that outranks everything before it keeps the order. */
  lemma {:induction false} AppendOpt(r: seq<string>, test: bool, x: string, rank: string -> nat)
    requires OrderedBy(r, rank) && RanksBelow(r, rank, rank(x))
    ensures OrderedBy(r + Opt(test, x), rank) && RanksBelow(r + Opt(test, x), rank, rank(x) + 1)
  {
    if test {
      var s := r + [x];
      assert forall i :: 0 <= i < |r| ==> s[i] == r[i];
    } else {
      assert r + Opt(test, x) == r;
    }
  }

  /** Four optional texts of increasing rank, concatenated, are in rank order. */
  lemma {:induction false} ChainOrdered(a: string, b: string, c: string, d: string, ta: bool, tb: bool, tc: bool, td: bool,
                     rank: string -> nat)
    requires rank(a) < rank(b) < rank(c) < rank(d)
    ensures OrderedBy(Opt(ta, a) + Opt(tb, b) + Opt(tc, c) + Opt(td, d), rank)
  {
    AppendOpt([], ta, a, rank);
    assert [] + Opt(ta, a) == Opt(ta, a);
    AppendOpt(Opt(ta, a), tb, b, rank);
    AppendOpt(Opt(ta, a) + Opt(tb, b), tc, c, rank);
    AppendOpt(Opt(ta, a) + Opt(tb, b) + Opt(tc, c), td, d, rank);
  }

  /** Whatever the outcome of the four tests, the pushed reasons are in push order. */
  lemma {:induction false} PushedOrdered(perfect: bool, good: bool, excellent: bool, frequent: bool)
    ensures RankOrdered(Pushed(perfect, good, excellent, frequent))
  {
    ReasonRanks();
    ChainOrdered(PerfectReason, GoodReason, ExcellentReason, FrequentReason, perfect, good, excellent, frequent, ReasonRank);
  }

  /**
   * The reasons `generateReasons` returns: each reason appears exactly when
   * its own test holds, and they come in push order.
   */
  function Reasons(context: RecommendationContext, session: Session, score: real): (r: seq<string>)
    ensures PerfectReason in r <==> score > 80.0
    ensures GoodReason in r <==> score > 60.0
    ensures ExcellentReason in r <==> MinLevelSuitability(context.currentForecast, session) > 75
    ensures FrequentReason in r <==> exists i :: 0 <= i < |context.userHistory| && context.userHistory[i].beachId == session.beachId
    ensures forall x :: x in r ==> x in ReasonOrder
    ensures RankOrdered(r)
  {
    var excellent := MinLevelSuitability(context.currentForecast, session) > 75;
    var frequent := VisitedBeach(context.userHistory, session);
    VisitedBeachMeans(context.userHistory, session);
    PushedMembers(score > 80.0, score > 60.0, excellent, frequent);
    PushedOrdered(score > 80.0, score > 60.0, excellent, frequent);
    Pushed(score > 80.0, score > 60.0, excellent, frequent)
  }

  /** "Perfect" never comes without "Good", and always before it. */
  lemma {:induction false} PerfectImpliesGood(context: RecommendationContext, session: Session, score: real)
    requires PerfectReason in Reasons(context, session, score)
    ensures GoodReason in Reasons(context, session, score)
    ensures Reasons(context, session, score)[..2] == [PerfectReason, GoodReason]
  {
  }

  /** `generateReasons`: push each reason whose test holds. */
  method GenerateReasons(context: RecommendationContext, session: Session, score: real) returns (reasons: seq<string>)
    ensures reasons == Reasons(context, session, score)
  {
    reasons := [];
    if score > 80.0 { reasons := reasons + [PerfectReason]; }
    assert reasons == Opt(score > 80.0, PerfectReason);
    if score > 60.0 { reasons := reasons + [GoodReason]; }
    var suitability := MinLevelSuitability(context.currentForecast, session);
    if suitability > 75 { reasons := reasons + [ExcellentReason]; }
    assert reasons == Opt(score > 80.0, PerfectReason) + Opt(score > 60.0, GoodReason) + Opt(suitability > 75, ExcellentReason);
    var hasFrequency := |Filter(context.userHistory, AtBeach(session.beachId))| > 0;
    if hasFrequency { reasons := reasons + [FrequentReason]; }
    assert reasons == Pushed(score > 80.0, score > 60.0, suitability > 75, hasFrequency);
  }

  // ---------------------------------------------------------------------------
  // Filtering and ranking

  /** The recommendation pushed for a session. */
  function Recommend(context: RecommendationContext, session: Session): SessionRecommendation
  {
    var score := SessionScore(context, session);
    SessionRecommendation(session.id, score, Reasons(context, session, score))
  }

  /** The loop's keep test. */
  function Kept(context: RecommendationContext): Session -> bool
  {
    (s: Session) => SessionScore(context, s) > KeepThreshold
  }

  /** The recommendation of each session, as a function value. */
  function RecommendFor(context: RecommendationContext): Session -> SessionRecommendation
  {
    (s: Session) => Recommend(context, s)
  }

  /** The recommendations pushed by the loop, in input order, before sorting. */
  function Candidates(context: RecommendationContext, sessions: seq<Session>): seq<SessionRecommendation>
  {
    Map(Filter(sessions, Kept(context)), RecommendFor(context))
  }

  /** A recommendation is a candidate iff it is the recommendation of an input session scoring above 30. */
  lemma {:induction false} CandidatesMembership(context: RecommendationContext, sessions: seq<Session>)
    ensures forall x :: x in Candidates(context, sessions) <==>
      exists i :: 0 <= i < |sessions| && SessionScore(context, sessions[i]) > KeepThreshold && x == Recommend(context, sessions[i])
  {
    var kept := Filter(sessions, Kept(context));
    var c := Candidates(context, sessions);
    FilterMembership(sessions, Kept(context));
    forall x | x in c
      ensures exists i :: 0 <= i < |sessions| && SessionScore(context, sessions[i]) > KeepThreshold && x == Recommend(context, sessions[i])
    {
      var k :| 0 <= k < |c| && c[k] == x;
      assert kept[k] in kept;
      var i :| 0 <= i < |sessions| && sessions[i] == kept[k];
    }
    forall i | 0 <= i < |sessions| && SessionScore(context, sessions[i]) > KeepThreshold
      ensures Recommend(context, sessions[i]) in c
    {
      assert sessions[i] in sessions;
      assert sessions[i] in kept;
      var k :| 0 <= k < |kept| && kept[k] == sessions[i];
      assert c[k] == Recommend(context, sessions[i]);
    }
  }

  predicate SortedByScoreDesc(rs: seq<SessionRecommendation>)
  {
    forall i, j :: 0 <= i < j < |rs| ==> rs[i].score >= rs[j].score
  }

  /** Places `x` after every leading element scoring at least as much, so ties keep arrival order. */
  function InsertByScore(x: SessionRecommendation, rs: seq<SessionRecommendation>): seq<SessionRecommendation>
  {
    if rs == [] then [x]
    else if rs[0].score >= x.score then [rs[0]] + InsertByScore(x, rs[1..])
    else [x] + rs
  }

  /** `recommendations.sort((a, b) => b.score - a.score)`, a stable sort: insertion of each element in turn. */
  function SortByScoreDesc(rs: seq<SessionRecommendation>): seq<SessionRecommendation>
  {
    if rs == [] then [] else InsertByScore(rs[|rs| - 1], SortByScoreDesc(rs[..|rs| - 1]))
  }

  /** The recommendations with score `v`. */
  function HasScore(v: real): SessionRecommendation -> bool
  {
    (r: SessionRecommendation) => r.score == v
  }

  /** What `generateSessionRecommendations` returns. */
  function Recommendations(context: RecommendationContext, sessions: seq<Session>): seq<SessionRecommendation>
  {
    SortByScoreDesc(Candidates(context, sessions))
  }

  /** Inserting adds exactly `x`. */
  lemma {:induction false} InsertIsPermutation(x: SessionRecommendation, rs: seq<SessionRecommendation>)
    ensures multiset(InsertByScore(x, rs)) == multiset(rs) + multiset{x}
  {
    if rs != [] && rs[0].score >= x.score {
      var tail := InsertByScore(x, rs[1..]);
      InsertIsPermutation(x, rs[1..]);
      assert rs == [rs[0]] + rs[1..];
      assert InsertByScore(x, rs) == [rs[0]] + tail;
      assert multiset(rs) == multiset{rs[0]} + multiset(rs[1..]);
      assert multiset([rs[0]] + tail) == multiset{rs[0]} + multiset(tail);
    }
  }

  /** Every element of an insertion is the inserted one or was already there. */
  lemma {:induction false} InsertMembers(x: SessionRecommendation, rs: seq<SessionRecommendation>)
    ensures forall y :: y in InsertByScore(x, rs) ==> y == x || y in rs
  {
    if rs != [] && rs[0].score >= x.score {
      InsertMembers(x, rs[1..]);
      assert rs == [rs[0]] + rs[1..];
    }
  }

  /** Inserting into a sorted sequence keeps it sorted. */
  lemma {:induction false} InsertKeepsOrder(x: SessionRecommendation, rs: seq<SessionRecommendation>)
    requires SortedByScoreDesc(rs)
    ensures SortedByScoreDesc(InsertByScore(x, rs))
  {
    if rs != [] {
      var r := InsertByScore(x, rs);
      if rs[0].score >= x.score {
        var tail := InsertByScore(x, rs[1..]);
        assert SortedByScoreDesc(rs[1..]);
        InsertKeepsOrder(x, rs[1..]);
        InsertMembers(x, rs[1..]);
        assert r == [rs[0]] + tail;
        forall k | 0 <= k < |tail|
          ensures tail[k].score <= rs[0].score
        {
          assert tail[k] in tail;
          if tail[k] != x {
            var j :| 0 <= j < |rs[1..]| && rs[1..][j] == tail[k];
            assert rs[j + 1] == tail[k];
          }
        }
        forall i, j | 0 <= i < j < |r|
          ensures r[i].score >= r[j].score
        {
          if i == 0 {
            assert r[j] == tail[j - 1];
          } else {
            assert r[i] == tail[i - 1] && r[j] == tail[j - 1];
          }
        }
      } else {
        assert r == [x] + rs;
        forall i, j | 0 <= i < j < |r|
          ensures r[i].score >= r[j].score
        {
          if i == 0 {
            assert r[j] == rs[j - 1];
          } else {
            assert r[i] == rs[i - 1] && r[j] == rs[j - 1];
          }
        }
      }
    }
  }

  /** In a sorted sequence no element scores above the first. */
  lemma {:induction false} HeadBoundsAll(rs: seq<SessionRecommendation>)
    requires SortedByScoreDesc(rs) && rs != []
    ensures forall y :: y in rs ==> y.score <= rs[0].score
  {
    forall y | y in rs
      ensures y.score <= rs[0].score
    {
      var j :| 0 <= j < |rs| && rs[j] == y;
    }
  }

  /** Among the elements with score `v`, an inserted element goes after those already present. */
  lemma {:induction false} InsertKeepsTies(x: SessionRecommendation, rs: seq<SessionRecommendation>, v: real)
    requires SortedByScoreDesc(rs)
    ensures Filter(InsertByScore(x, rs), HasScore(v)) == Filter(rs, HasScore(v)) + (if x.score == v then [x] else [])
  {
    var p := HasScore(v);
    if rs == [] {
      assert [x][..0] == [];
    } else if rs[0].score >= x.score {
      var tail := InsertByScore(x, rs[1..]);
      assert InsertByScore(x, rs) == [rs[0]] + tail;
      InsertKeepsTies(x, rs[1..], v);
      FilterConsExtends(rs[0], rs[1..], tail, p, if x.score == v then [x] else []);
      assert [rs[0]] + rs[1..] == rs;
    } else {
      assert InsertByScore(x, rs) == [x] + rs;
      FilterCons(x, rs, p);
      if x.score == v {
        HeadBoundsAll(rs);
        FilterNone(rs, p);
      }
    }
  }

  /**
   * The sort orders by score, highest first, is a permutation, and is
   * stable: for every score, the recommendations with that score keep their
   * input order.
   */
  lemma {:induction false} SortIsStableDescending(rs: seq<SessionRecommendation>)
    ensures SortedByScoreDesc(SortByScoreDesc(rs))
    ensures multiset(SortByScoreDesc(rs)) == multiset(rs)
    ensures forall v :: Filter(SortByScoreDesc(rs), HasScore(v)) == Filter(rs, HasScore(v))
  {
    if rs != [] {
      var n := |rs| - 1;
      var sorted := SortByScoreDesc(rs[..n]);
      SortIsStableDescending(rs[..n]);
      InsertKeepsOrder(rs[n], sorted);
      InsertIsPermutation(rs[n], sorted);
      assert rs == rs[..n] + [rs[n]];
      forall v
        ensures Filter(SortByScoreDesc(rs), HasScore(v)) == Filter(rs, HasScore(v))
      {
        InsertKeepsTies(rs[n], sorted, v);
      }
    }
  }

  /** The first element of a non-empty sorted sequence carries its highest score. */
  lemma {:induction false} HeadIsHighest(rs: seq<SessionRecommendation>, v: real)
    requires SortedByScoreDesc(rs) && rs != []
    requires Filter(rs, HasScore(v)) != []
    ensures v <= rs[0].score
  {
    var f := Filter(rs, HasScore(v));
    FilterMembership(rs, HasScore(v));
    assert f[0] in f;
  }

  /** Two sorted sequences with the same per-score subsequences start with the same element. */
  lemma {:induction false} SameHead(a: seq<SessionRecommendation>, b: seq<SessionRecommendation>)
    requires SortedByScoreDesc(a) && SortedByScoreDesc(b) && a != [] && b != []
    requires forall v :: Filter(a, HasScore(v)) == Filter(b, HasScore(v))
    ensures a[0] == b[0]
  {
    var va, vb := a[0].score, b[0].score;
    HeadScorePresent(a);
    HeadScorePresent(b);
    assert Filter(b, HasScore(va)) == Filter(a, HasScore(va));
    assert Filter(a, HasScore(vb)) == Filter(b, HasScore(vb));
    HeadIsHighest(b, va);
    HeadIsHighest(a, vb);
    assert va == vb;
  }

  /** A non-empty sequence's subsequence for its first score starts with its first element. */
  lemma {:induction false} HeadScorePresent(a: seq<SessionRecommendation>)
    requires a != []
    ensures Filter(a, HasScore(a[0].score)) != []
    ensures Filter(a, HasScore(a[0].score))[0] == a[0]
  {
    FilterCons(a[0], a[1..], HasScore(a[0].score));
    assert a == [a[0]] + a[1..];
  }

  /** Equal per-score subsequences make both sequences empty or neither. */
  lemma {:induction false} SameEmptiness(a: seq<SessionRecommendation>, b: seq<SessionRecommendation>)
    requires forall v :: Filter(a, HasScore(v)) == Filter(b, HasScore(v))
    ensures a == [] <==> b == []
  {
    if a != [] {
      HeadScorePresent(a);
      assert Filter(b, HasScore(a[0].score)) != [];
    }
    if b != [] {
      HeadScorePresent(b);
      assert Filter(a, HasScore(b[0].score)) != [];
    }
  }

  /**
   * Sorted order together with the per-score subsequences determines a
   * sequence: any stable descending sort of the same input gives the same
   * result as `SortByScoreDesc`.
   */
  lemma {:induction false} StableSortIsUnique(a: seq<SessionRecommendation>, b: seq<SessionRecommendation>)
    requires SortedByScoreDesc(a) && SortedByScoreDesc(b)
    requires forall v :: Filter(a, HasScore(v)) == Filter(b, HasScore(v))
    ensures a == b
  {
    if a != [] && b != [] {
      SameHead(a, b);
      forall v
        ensures Filter(a[1..], HasScore(v)) == Filter(b[1..], HasScore(v))
      {
        FilterSameTail(a, b, HasScore(v));
      }
      StableSortIsUnique(a[1..], b[1..]);
      assert a == [a[0]] + a[1..] && b == [b[0]] + b[1..];
    } else {
      SameEmptiness(a, b);
    }
  }

  /** One more session adds its recommendation when it scores above 30. */
  lemma {:induction false} CandidatesStep(context: RecommendationContext, sessions: seq<Session>, i: nat)
    requires i < |sessions|
    ensures Candidates(context, sessions[..i + 1]) == Candidates(context, sessions[..i])
      + (if SessionScore(context, sessions[i]) > KeepThreshold then [Recommend(context, sessions[i])] else [])
  {
    MapFilterStep(sessions, i, Kept(context), RecommendFor(context));
  }

  /**
   * `generateSessionRecommendations`: score each session in turn, push a
   * recommendation for each scoring above 30, then sort by score.
   */
  method GenerateSessionRecommendations(context: RecommendationContext, sessions: seq<Session>)
    returns (recommendations: seq<SessionRecommendation>)
    ensures recommendations == SortByScoreDesc(Candidates(context, sessions))
    ensures SortedByScoreDesc(recommendations)
    ensures forall r :: r in recommendations ==> KeepThreshold < r.score <= 100.0
  {
    recommendations := [];
    for i := 0 to |sessions|
      invariant recommendations == Candidates(context, sessions[..i])
    {
      CandidatesStep(context, sessions, i);
      var session := sessions[i];
      var score := CalculateSessionScore(context, session);
      if score > KeepThreshold {
        var reasons := GenerateReasons(context, session, score);
        recommendations := recommendations + [SessionRecommendation(session.id, score, reasons)];
      }
    }
    assert sessions[..|sessions|] == sessions;
    recommendations := SortByScoreDesc(recommendations);
    RecommendationsSpec(context, sessions);
  }

  /** The sorted output holds the same recommendations as the candidates. */
  lemma {:induction false} RecommendationsArePermutedCandidates(context: RecommendationContext, sessions: seq<Session>)
    ensures forall x :: x in Recommendations(context, sessions) <==> x in Candidates(context, sessions)
  {
    var c := Candidates(context, sessions);
    SortIsStableDescending(c);
    assert forall x :: x in Recommendations(context, sessions) <==> x in multiset(Recommendations(context, sessions));
    assert forall x :: x in c <==> x in multiset(c);
  }

  /**
   * The output holds exactly the recommendations of the input sessions
   * scoring above 30, each a valid percentage and carrying its session's id,
   * sorted highest first, with equal scores in input order.
   */
  lemma {:induction false} RecommendationsSpec(context: RecommendationContext, sessions: seq<Session>)
    ensures forall x :: x in Recommendations(context, sessions) <==>
      exists i :: 0 <= i < |sessions| && SessionScore(context, sessions[i]) > KeepThreshold && x == Recommend(context, sessions[i])
    ensures forall x :: x in Recommendations(context, sessions) ==>
      ValidRecommendation(x) && x.score > KeepThreshold && exists s :: s in sessions && s.id == x.sessionId
    ensures SortedByScoreDesc(Recommendations(context, sessions))
    ensures forall v :: Filter(Recommendations(context, sessions), HasScore(v)) == Filter(Candidates(context, sessions), HasScore(v))
  {
    SortIsStableDescending(Candidates(context, sessions));
    CandidatesMembership(context, sessions);
    RecommendationsArePermutedCandidates(context, sessions);
    forall x | x in Recommendations(context, sessions)
      ensures exists s :: s in sessions && s.id == x.sessionId
    {
      var i :| 0 <= i < |sessions| && SessionScore(context, sessions[i]) > KeepThreshold && x == Recommend(context, sessions[i]);
      assert sessions[i] in sessions;
    }
  }

  /**
   * Because the level match is a constant 25, a context whose forecast
   * gives no negative suitability keeps every session: nothing is filtered,
   * and every reason list says "Good wave forecast for your skill".
   */
  lemma {:induction false} NothingFiltered(context: RecommendationContext, sessions: seq<Session>)
    requires forall s :: s in sessions ==> MinLevelSuitability(context.currentForecast, s) >= 0
    ensures |Recommendations(context, sessions)| == |sessions|
    ensures forall x :: x in Recommendations(context, sessions) ==> GoodReason in x.reasons
  {
    forall s | s in sessions ensures Kept(context)(s) { ScoreAtLeast75(context, s); }
    FilterAll(sessions, Kept(context));
    var c := Candidates(context, sessions);
    SortIsStableDescending(c);
    assert |multiset(Recommendations(context, sessions))| == |multiset(c)|;
    RecommendationsSpec(context, sessions);
    forall x | x in Recommendations(context, sessions) ensures GoodReason in x.reasons {
      var i :| 0 <= i < |sessions| && SessionScore(context, sessions[i]) > KeepThreshold && x == Recommend(context, sessions[i]);
      assert sessions[i] in sessions;
      ScoreAtLeast75(context, sessions[i]);
    }
  }

  /** A single session is recommended alone exactly when it scores above 30. */
  lemma {:induction false} SingleSession(context: RecommendationContext, session: Session)
    ensures Recommendations(context, [session]) ==
      if SessionScore(context, session) > KeepThreshold then [Recommend(context, session)] else []
  {
    var ss := [session];
    CandidatesStep(context, ss, 0);
    assert ss[..1] == ss && ss[..0] == [];
    var c := Candidates(context, ss);
    assert Candidates(context, []) == [];
    if c != [] {
      assert c == [c[0]];
      assert SortByScoreDesc(c) == InsertByScore(c[0], SortByScoreDesc([]));
    }
  }

  /** The hypotheses of the worked case below. */
  predicate ScenarioHolds(context: RecommendationContext, session: Session, friend: SessionParticipant)
  {
    && context.currentForecast.Some? && context.currentForecast.value.suitability.beginner == 80
    && context.userAvailability == [UserAvailability("a1", context.userId, 6, "06:00", "12:00")]
    && |context.userHistory| == 3
    && (forall s :: s in context.userHistory ==> s.beachId == session.beachId && s.participants == [friend])
    && session.scheduledDay == 6 && session.scheduledHour == 8 && session.minLevel == Beginner
    && session.participants == [friend]
  }

  /** The Saturday 06:00-12:00 slot covers a Saturday 08:00 session. */
  lemma {:induction false} ScenarioAvailability(context: RecommendationContext, session: Session, friend: SessionParticipant)
    requires ScenarioHolds(context, session, friend)
    ensures AvailabilityMatch(context.userAvailability, session) == 20
  {
    LeadingHourOfHHmm("06:00");
    LeadingHourOfHHmm("12:00");
    assert SlotCovers(context.userAvailability[0], 6, 8);
  }

  /** The friend, seen in every past session, counts once. */
  lemma {:induction false} ScenarioFriend(context: RecommendationContext, session: Session, friend: SessionParticipant)
    requires ScenarioHolds(context, session, friend)
    ensures FriendFactor(context, session) == 8
  {
    var history := context.userHistory;
    assert history[0] in history;
    assert history[0].participants[0].userId == friend.userId;
    assert SharesSessionWith(history, friend.userId);
    assert Positions(session.participants, IsFriendIn(history)) == {0};
  }

  /** Three past sessions at the beach give 6 points. */
  lemma {:induction false} ScenarioHistory(context: RecommendationContext, session: Session, friend: SessionParticipant)
    requires ScenarioHolds(context, session, friend)
    ensures HistoryMatch(context.userHistory, session) == 6
  {
    var history := context.userHistory;
    assert history[0] in history && history[1] in history && history[2] in history;
    assert Positions(history, AtBeach(session.beachId)) == {0, 1, 2};
  }

  /** The five sub-scores of the worked case. */
  lemma {:induction false} ScenarioSubScores(context: RecommendationContext, session: Session, friend: SessionParticipant)
    requires ScenarioHolds(context, session, friend)
    ensures LevelMatch(context.userId, session) == 25.0
    ensures ForecastMatch(context.currentForecast, session) == 20.0
    ensures AvailabilityMatch(context.userAvailability, session) == 20
    ensures FriendFactor(context, session) == 8
    ensures HistoryMatch(context.userHistory, session) == 6
  {
    ScenarioAvailability(context, session, friend);
    ScenarioFriend(context, session, friend);
    ScenarioHistory(context, session, friend);
  }

  /** In the worked case every one of the four reasons is given. */
  lemma {:induction false} ScenarioReasons(context: RecommendationContext, session: Session, friend: SessionParticipant)
    requires ScenarioHolds(context, session, friend)
    ensures Reasons(context, session, 100.0) == ReasonOrder
  {
    assert context.userHistory[0] in context.userHistory;
    VisitedBeachMeans(context.userHistory, session);
    assert VisitedBeach(context.userHistory, session);
    assert Pushed(true, true, true, true) == ReasonOrder;
  }

  /**
   * A worked case: a Saturday 06:00-12:00 slot, three past sessions at the
   * session's beach with the same friend, a beginner suitability of 80, and
   * a Saturday 08:00 beginner session that friend joins. The sub-scores are
   * 25 + 20 + 20 + 8 + 6, the sum 129 is clamped to 100, and the session is
   * recommended with all four reasons.
   */
  lemma {:induction false} EndToEndScenario(context: RecommendationContext, session: Session, friend: SessionParticipant)
    requires ScenarioHolds(context, session, friend)
    ensures RawScore(context, session) == 129.0
    ensures Recommendations(context, [session]) == [SessionRecommendation(session.id, 100.0, ReasonOrder)]
  {
    ScenarioSubScores(context, session, friend);
    assert SessionScore(context, session) == 100.0;
    ScenarioReasons(context, session, friend);
    SingleSession(context, session);
  }
}
