/**
 * The trip-purpose predictor: a score per purpose from the start hour, the
 * destination address, the transport mode and the user's similar past
 * trips; the winning purpose and its clamped confidence; and the grouping
 * of a user's destinations into clusters. The random noise and the
 * geodesic distance enter as parameters.
 */
module PurposePredictor {
  import opened Common

  /**
   * A trip as the predictor reads it; every key may be missing. The mode
   * also tells a missing key (`None`) from a key holding None (`Some(None)`).
   */
  datatype TripData = TripData(
    startTime: Option<Instant>,
    weekday: Option<int>,
    destAddress: Option<string>,
    transportMode: Option<Option<string>>,
    destLat: Option<real>,
    destLng: Option<real>,
    purpose: Option<string>)

  /** Geodesic distance in metres between two (latitude, longitude) pairs. */
  type Geodesic = ((real, real), (real, real)) -> real

  /** The purposes the predictor scores; each has its name as stored on trips. */
  datatype Purpose = Work | School | Shopping | Leisure | Social | Medical | Business | Exercise | Other
  {
    function Name(): string
    {
      match this
      case Work => "work"
      case School => "school"
      case Shopping => "shopping"
      case Leisure => "leisure"
      case Social => "social"
      case Medical => "medical"
      case Business => "business"
      case Exercise => "exercise"
      case Other => "other"
    }

    /** The purposes with a time pattern. */
    predicate Patterned()
    {
      Work? || School? || Shopping? || Leisure? || Social?
    }
  }

  /** Per-purpose random factors, drawn uniformly from [0.7, 1.3]. */
  type Noise = Purpose -> real

  const ScoredPurposes: seq<Purpose> := [Work, School, Shopping, Leisure, Social]
  const OtherPurposes: seq<Purpose> := [Medical, Business, Exercise, Other]
  const AllPurposes: seq<Purpose> := ScoredPurposes + OtherPurposes

  // ---------------------------------------------------------------------
  // Time score
  // ---------------------------------------------------------------------

  /** An hour window `(start, end)`, both ends included. */
  datatype Window = Window(startHour: int, endHour: int)

  /** A peak window is read without wrap-around. */
  predicate InPeak(w: Window, hour: int)
  {
    w.startHour <= hour <= w.endHour
  }

  /** A low-activity window with start > end wraps past midnight. */
  predicate InLow(w: Window, hour: int)
  {
    if w.startHour > w.endHour then hour >= w.startHour || hour <= w.endHour
    else w.startHour <= hour <= w.endHour
  }

  /** A wrapping window holds exactly the hours of the day that the window strictly between its ends misses. */
  lemma OvernightComplement(w: Window, hour: int)
    requires 0 <= w.endHour && w.endHour + 1 < w.startHour <= 23 && 0 <= hour < 24
    ensures InLow(w, hour) <==> !InLow(Window(w.endHour + 1, w.startHour - 1), hour)
  {
  }

  datatype TimePattern = TimePattern(
    peak: seq<Window>,
    low: seq<Window>,
    weekdayBoost: Option<real>,
    weekendBoost: Option<real>,
    weekendPenalty: Option<real>)

  function TimePatternOf(purpose: Purpose): Option<TimePattern>
  {
    match purpose
    case Work => Some(TimePattern([Window(7, 9), Window(17, 19)], [Window(22, 6)], Some(1.5), None, Some(0.3)))
    case School => Some(TimePattern([Window(7, 9), Window(15, 17)], [Window(19, 7)], Some(2.0), None, Some(0.1)))
    case Shopping => Some(TimePattern([Window(10, 12), Window(14, 18)], [Window(0, 7)], Some(1.0), Some(1.3), None))
    case Leisure => Some(TimePattern([Window(10, 22)], [Window(0, 8)], Some(0.8), Some(1.5), None))
    case Social => Some(TimePattern([Window(18, 23)], [Window(5, 10)], Some(1.0), Some(1.4), None))
    case _ => None
  }

  predicate AnyPeak(ws: seq<Window>, hour: int)
  {
    exists k :: 0 <= k < |ws| && InPeak(ws[k], hour)
  }

  /** Number of low windows holding the hour. */
  function LowCount(ws: seq<Window>, hour: int): nat
  {
    if ws == [] then 0 else LowCount(ws[..|ws| - 1], hour) + (if InLow(ws[|ws| - 1], hour) then 1 else 0)
  }

  function Pow(x: real, n: nat): real
  {
    if n == 0 then 1.0 else x * Pow(x, n - 1)
  }

  lemma {:induction false} PowUnitBounds(x: real, n: nat)
    requires 0.0 < x <= 1.0
    ensures 0.0 < Pow(x, n) <= 1.0
  {
    if n > 0 {
      PowUnitBounds(x, n - 1);
      MulPositive(x, Pow(x, n - 1));
      MulAtMost(x, Pow(x, n - 1), 1.0, 1.0);
    }
  }

  /** The weekend factor (boost, else penalty, else none) or the weekday boost. */
  function DayFactor(p: TimePattern, weekday: int): real
  {
    if weekday >= 5 then
      (if p.weekendBoost.Some? then p.weekendBoost.value else p.weekendPenalty.GetOr(1.0))
    else p.weekdayBoost.GetOr(1.0)
  }

  /**
   * The time score in closed form: 0.5 without a start time or a pattern;
   * otherwise 1.0 at a peak hour and 0.3 elsewhere, times 0.3 for every low
   * window holding the hour, times the day factor.
   */
  function TimeScoreOf(purpose: Purpose, start: Option<Instant>, weekday: int): real
  {
    if start.None? || TimePatternOf(purpose).None? then 0.5
    else
      var p := TimePatternOf(purpose).value;
      var hour := HourOf(start.value);
      (if AnyPeak(p.peak, hour) then 1.0 else 0.3) * Pow(0.3, LowCount(p.low, hour)) * DayFactor(p, weekday)
  }

  /** Every time score lies in (0, 2]. */
  lemma TimeScoreRange(purpose: Purpose, start: Option<Instant>, weekday: int)
    ensures 0.0 < TimeScoreOf(purpose, start, weekday) <= 2.0
  {
    if start.Some? && TimePatternOf(purpose).Some? {
      var p := TimePatternOf(purpose).value;
      var hour := HourOf(start.value);
      PowUnitBounds(0.3, LowCount(p.low, hour));
      var base := if AnyPeak(p.peak, hour) then 1.0 else 0.3;
      var f := DayFactor(p, weekday);
      assert 0.0 < f <= 2.0;
      var q := Pow(0.3, LowCount(p.low, hour));
      MulPositive(base, q);
      MulAtMost(base, q, 1.0, 1.0);
      MulPositive(base * q, f);
      MulAtMost(base * q, f, 1.0, 2.0);
    }
  }

  method CalculateTimeScore(purpose: Purpose, start: Option<Instant>, weekday: int) returns (score: real)
    ensures score == TimeScoreOf(purpose, start, weekday)
  {
    var pattern := TimePatternOf(purpose);
    if start.None? || pattern.None? {
      return 0.5;
    }
    var p := pattern.value;
    var hour := HourOf(start.value);
    score := 0.3;
    var i := 0;
    while i < |p.peak|
      invariant 0 <= i <= |p.peak|
      invariant score == 0.3
      invariant forall k :: 0 <= k < i ==> !InPeak(p.peak[k], hour)
    {
      if InPeak(p.peak[i], hour) {
        score := 1.0;
        break;
      }
      i := i + 1;
    }
    assert score == (if AnyPeak(p.peak, hour) then 1.0 else 0.3);
    ghost var base := score;
    var j := 0;
    while j < |p.low|
      invariant 0 <= j <= |p.low|
      invariant score == base * Pow(0.3, LowCount(p.low[..j], hour))
    {
      assert p.low[..j + 1][..j] == p.low[..j];
      if InLow(p.low[j], hour) {
        score := score * 0.3;
      }
      j := j + 1;
    }
    assert p.low[..|p.low|] == p.low;
    if weekday >= 5 {
      if p.weekendBoost.Some? {
        score := score * p.weekendBoost.value;
      } else if p.weekendPenalty.Some? {
        score := score * p.weekendPenalty.value;
      }
    } else if p.weekdayBoost.Some? {
      score := score * p.weekdayBoost.value;
    }
  }

  // ---------------------------------------------------------------------
  // Location score
  // ---------------------------------------------------------------------

  const KeywordPurposes: seq<Purpose> := [Work, School, Shopping, Leisure, Social, Medical]

  function Keywords(purpose: Purpose): Option<seq<string>>
  {
    match purpose
    case Work => Some(["office", "business", "corporate", "company", "headquarters", "building"])
    case School => Some(["school", "university", "college", "campus", "education", "library"])
    case Shopping => Some(["mall", "store", "shop", "market", "grocery", "supermarket", "retail"])
    case Leisure => Some(["park", "cinema", "theater", "museum", "beach", "restaurant", "cafe"])
    case Social => Some(["friend", "family", "home", "residence", "house", "apartment"])
    case Medical => Some(["hospital", "clinic", "doctor", "medical", "pharmacy", "health"])
    case _ => None
  }

  /** Number of keywords that occur in the address. */
  function Matches(keywords: seq<string>, address: string): (r: nat)
    ensures r <= |keywords|
  {
    if keywords == [] then 0
    else Matches(keywords[..|keywords| - 1], address) + (if Contains(address, keywords[|keywords| - 1]) then 1 else 0)
  }

  /** Matches of the purpose's keywords (none for a purpose without any). */
  function MatchesOf(purpose: Purpose, address: string): nat
  {
    if Keywords(purpose).Some? then Matches(Keywords(purpose).value, address) else 0
  }

  /** The factor another purpose's keywords apply: `1 - 0.2` per keyword found, 1 when none is. */
  function ConflictFactor(other: Purpose, purpose: Purpose, address: string): real
  {
    var c := MatchesOf(other, address);
    if other != purpose && c > 0 then 1.0 - c as real * 0.2 else 1.0
  }

  /** `start` multiplied by the conflict factor of each listed purpose, in order. */
  function Damped(start: real, others: seq<Purpose>, purpose: Purpose, address: string): real
  {
    if others == [] then start
    else Times(Damped(start, others[..|others| - 1], purpose, address), ConflictFactor(others[|others| - 1], purpose, address))
  }

  function Boost(matches: nat): real
  {
    if matches > 0 then 1.0 + matches as real * 0.5 else 1.0
  }

  function Max(a: real, b: real): real
  {
    if a >= b then a else b
  }

  /** A product of two scores, named so that equal factors give visibly equal products. */
  function Times(a: real, b: real): real
  {
    a * b
  }

  /** The location score: own keywords boost, other purposes' keywords damp, floored at 0.1. */
  function LocationScoreOf(purpose: Purpose, address: string): (r: real)
    ensures r >= 0.1
  {
    if Keywords(purpose).None? then 1.0
    else Max(Damped(Boost(MatchesOf(purpose, address)), KeywordPurposes, purpose, address), 0.1)
  }

  lemma {:induction false} NoConflictsUndamped(start: real, others: seq<Purpose>, purpose: Purpose, address: string)
    requires forall q :: q in others && q != purpose ==> MatchesOf(q, address) == 0
    ensures Damped(start, others, purpose, address) == start
  {
    if others != [] {
      assert forall q :: q in others[..|others| - 1] ==> q in others;
      NoConflictsUndamped(start, others[..|others| - 1], purpose, address);
    }
  }

  /**
   * Without keywords of any other purpose in the address the score is the
   * boost alone: 1.0 with no own keyword and 1 + 0.5 per own keyword.
   */
  lemma LocationWithoutConflicts(purpose: Purpose, address: string)
    requires Keywords(purpose).Some?
    requires forall q :: q in KeywordPurposes && q != purpose ==> MatchesOf(q, address) == 0
    ensures LocationScoreOf(purpose, address) == Boost(MatchesOf(purpose, address))
    ensures MatchesOf(purpose, address) == 0 ==> LocationScoreOf(purpose, address) == 1.0
  {
    NoConflictsUndamped(Boost(MatchesOf(purpose, address)), KeywordPurposes, purpose, address);
  }

  method CalculateLocationScore(purpose: Purpose, address: string) returns (score: real)
    ensures score == LocationScoreOf(purpose, address)
  {
    score := 1.0;
    var keywords := Keywords(purpose);
    if keywords.Some? {
      var m := Matches(keywords.value, address);
      if m > 0 {
        score := score * (1.0 + m as real * 0.5);
      }
      assert score == Boost(MatchesOf(purpose, address));
      score := DampByConflicts(score, purpose, address);
    }
    score := Max(score, 0.1);
  }

  lemma DampedStep(start: real, others: seq<Purpose>, i: int, purpose: Purpose, address: string)
    requires 0 <= i < |others|
    ensures Damped(start, others[..i + 1], purpose, address) ==
      Times(Damped(start, others[..i], purpose, address), ConflictFactor(others[i], purpose, address))
  {
    assert others[..i + 1][..i] == others[..i];
  }

  /** Multiplies `start` by `1 - 0.2 * conflicts` for each other purpose whose keywords occur. */
  method DampByConflicts(start: real, purpose: Purpose, address: string) returns (score: real)
    ensures score == Damped(start, KeywordPurposes, purpose, address)
  {
    score := start;
    for i := 0 to |KeywordPurposes|
      invariant score == Damped(start, KeywordPurposes[..i], purpose, address)
    {
      var other := KeywordPurposes[i];
      DampedStep(start, KeywordPurposes, i, purpose, address);
      if other != purpose {
        var conflicts := MatchesOf(other, address);
        if conflicts > 0 {
          score := Times(score, 1.0 - conflicts as real * 0.2);
        }
      }
    }
    assert KeywordPurposes[..|KeywordPurposes|] == KeywordPurposes;
  }

  // ---------------------------------------------------------------------
  // Mode score
  // ---------------------------------------------------------------------

  /** The preference table of a purpose, by transport mode (none for a purpose without one). */
  function ModePreferences(purpose: Purpose): map<string, real>
  {
    match purpose
    case Work => map["car" := 1.2, "bus" := 1.3, "metro" := 1.3, "cycle" := 1.1, "walk" := 0.8, "taxi" := 0.9]
    case School => map["bus" := 1.4, "metro" := 1.3, "cycle" := 1.2, "walk" := 1.1, "car" := 0.8, "taxi" := 0.7]
    case Shopping => map["car" := 1.3, "bus" := 1.1, "walk" := 1.2, "taxi" := 1.1, "cycle" := 0.8, "metro" := 0.9]
    case Leisure => map["walk" := 1.2, "cycle" := 1.3, "car" := 1.1, "taxi" := 1.0, "bus" := 0.9, "metro" := 0.9]
    case Social => map["car" := 1.2, "taxi" := 1.3, "walk" := 1.1, "bus" := 1.0, "cycle" := 0.9, "metro" := 1.0]
    case _ => map[]
  }

  /**
   * `trip_data.get('transport_mode', 'walk')`: "walk" only when the key is
   * missing; a key holding None gives None.
   */
  function ModeOf(trip: TripData): Option<string>
  {
    if trip.transportMode.None? then Some("walk") else trip.transportMode.value
  }

  /**
   * The mode score of the trip's mode. None is in no row of the table, so
   * a trip whose mode is None scores the neutral 1.0, and a trip without
   * the key scores as a walk.
   */
  function TripModeScore(purpose: Purpose, trip: TripData): (r: real)
    ensures trip.transportMode == Some(None) ==> r == 1.0
    ensures trip.transportMode.None? ==> r == ModeScore(purpose, "walk")
    ensures trip.transportMode.Some? && trip.transportMode.value.Some? ==>
      r == ModeScore(purpose, trip.transportMode.value.value)
    ensures 0.7 <= r <= 1.4
  {
    var mode := ModeOf(trip);
    if mode.Some? then ModeScore(purpose, mode.value) else 1.0
  }

  /** The table's preference for the pair, neutral 1.0 for a pair it does not list. */
  function ModeScore(purpose: Purpose, mode: string): (r: real)
    ensures mode !in ModePreferences(purpose) ==> r == 1.0
    ensures 0.7 <= r <= 1.4
  {
    var table := ModePreferences(purpose);
    if mode in table then table[mode] else 1.0
  }

  // ---------------------------------------------------------------------
  // History score
  // ---------------------------------------------------------------------

  function AbsInt(x: int): int
  {
    if x < 0 then -x else x
  }

  /**
   * A past trip is similar when its start hour is within 2 of the current
   * one (no wrap-around midnight), both destination latitudes are non-zero
   * and the destinations are at most 500 m apart. A missing start time
   * reads as `now`, a missing coordinate as 0.
   */
  predicate Similar(current: TripData, trip: TripData, now: Instant, geo: Geodesic)
  {
    var currentHour := HourOf(current.startTime.GetOr(now));
    var tripHour := HourOf(trip.startTime.GetOr(now));
    var currentDest := (current.destLat.GetOr(0.0), current.destLng.GetOr(0.0));
    var tripDest := (trip.destLat.GetOr(0.0), trip.destLng.GetOr(0.0));
    AbsInt(tripHour - currentHour) <= 2 && currentDest.0 != 0.0 && tripDest.0 != 0.0 &&
    geo(currentDest, tripDest) <= 500.0
  }

  function SimilarTrips(current: TripData, history: seq<TripData>, now: Instant, geo: Geodesic): (r: seq<TripData>)
    ensures |r| <= |history|
    ensures forall t :: t in r ==> t in history && Similar(current, t, now, geo)
  {
    if history == [] then []
    else
      var t := history[|history| - 1];
      SimilarTrips(current, history[..|history| - 1], now, geo) + (if Similar(current, t, now, geo) then [t] else [])
  }

  function PurposeOf(t: TripData): string
  {
    t.purpose.GetOr("other")
  }

  function PurposesOf(ts: seq<TripData>): (r: seq<string>)
    ensures |r| == |ts| && forall k :: 0 <= k < |ts| ==> r[k] == PurposeOf(ts[k])
  {
    seq(|ts|, k requires 0 <= k < |ts| => PurposeOf(ts[k]))
  }

  /** 1.0 with no similar trip; 1 + the purpose's share of them when it occurs; 0.8 otherwise. */
  function HistoryScoreOf(purpose: Purpose, current: TripData, history: seq<TripData>, now: Instant, geo: Geodesic): real
  {
    var similar := SimilarTrips(current, history, now, geo);
    var c := Count(PurposesOf(similar), purpose.Name());
    if similar == [] then 1.0
    else if c > 0 then 1.0 + c as real / |similar| as real
    else 0.8
  }

  /** Every history score is 0.8, or lies in [1, 2]; above 1 exactly when the purpose occurs among similar trips. */
  lemma HistoryScoreRange(purpose: Purpose, current: TripData, history: seq<TripData>, now: Instant, geo: Geodesic)
    ensures var r := HistoryScoreOf(purpose, current, history, now, geo);
      r == 0.8 || 1.0 <= r <= 2.0
    ensures var similar := SimilarTrips(current, history, now, geo);
      HistoryScoreOf(purpose, current, history, now, geo) > 1.0 <==> purpose.Name() in PurposesOf(similar)
  {
    var similar := SimilarTrips(current, history, now, geo);
    var purposes := PurposesOf(similar);
    CountPositive(purposes, purpose.Name());
    CountAtMostLength(purposes, purpose.Name());
    var c := Count(purposes, purpose.Name());
    if similar != [] && c > 0 {
      ShareAtMostOne(c, |similar|);
    }
  }

  lemma ShareAtMostOne(part: nat, whole: nat)
    requires 0 < part <= whole
    ensures 0.0 < part as real / whole as real <= 1.0
  {
  }

  lemma {:induction false} CountAtMostLength<T>(s: seq<T>, x: T)
    ensures Count(s, x) <= |s|
  {
    if s != [] {
      CountAtMostLength(s[..|s| - 1], x);
    }
  }

  /** The similar trips, in history order. */
  method FindSimilar(current: TripData, history: seq<TripData>, now: Instant, geo: Geodesic) returns (similar: seq<TripData>)
    ensures similar == SimilarTrips(current, history, now, geo)
  {
    similar := [];
    for i := 0 to |history|
      invariant similar == SimilarTrips(current, history[..i], now, geo)
    {
      assert history[..i + 1][..i] == history[..i];
      if Similar(current, history[i], now, geo) {
        similar := similar + [history[i]];
      }
    }
    assert history[..|history|] == history;
  }

  /** Similar trips per purpose name. */
  method CountPurposes(trips: seq<TripData>) returns (counts: map<string, nat>)
    ensures counts == Tally(PurposesOf(trips))
  {
    counts := map[];
    for j := 0 to |trips|
      invariant counts == Tally(PurposesOf(trips[..j]))
    {
      var p := PurposeOf(trips[j]);
      assert PurposesOf(trips[..j + 1]) == PurposesOf(trips[..j]) + [p];
      TallyAppend(PurposesOf(trips[..j]), p);
      counts := counts[p := (if p in counts then counts[p] else 0) + 1];
    }
    assert trips[..|trips|] == trips;
  }

  method CalculateHistoryScore(purpose: Purpose, current: TripData, history: seq<TripData>, now: Instant, geo: Geodesic)
    returns (score: real)
    ensures score == HistoryScoreOf(purpose, current, history, now, geo)
  {
    if history == [] {
      return 1.0;
    }
    var similar := FindSimilar(current, history, now, geo);
    if similar == [] {
      return 1.0;
    }
    var counts := CountPurposes(similar);
    TallyCounts(PurposesOf(similar));
    CountPositive(PurposesOf(similar), purpose.Name());
    if purpose.Name() in counts {
      score := 1.0 + counts[purpose.Name()] as real / |similar| as real;
    } else {
      score := 0.8;
    }
  }

  // ---------------------------------------------------------------------
  // Prediction
  // ---------------------------------------------------------------------

  /** The address as matched against keywords: lower-cased, empty when missing. */
  function DestOf(trip: TripData): string
  {
    Lower(trip.destAddress.GetOr(""))
  }

  /** The weekday given with the trip, else that of its start, else Monday. */
  function WeekdayFor(trip: TripData): int
  {
    if trip.weekday.Some? then trip.weekday.value
    else if trip.startTime.Some? then WeekdayOf(trip.startTime.value)
    else 0
  }

  /**
   * A purpose's score before noise: for the five patterned purposes the
   * product of the time, location and mode scores, and the history score
   * when there is history; 0.1 for every other purpose.
   */
  function BaseScore(purpose: Purpose, trip: TripData, history: seq<TripData>, now: Instant, geo: Geodesic): real
  {
    if purpose.Patterned() then
      Times(Times(Times(TimeScoreOf(purpose, trip.startTime, WeekdayFor(trip)),
        LocationScoreOf(purpose, DestOf(trip))),
        TripModeScore(purpose, trip)),
        HistoryFactor(purpose, trip, history, now, geo))
    else 0.1
  }

  function HistoryFactor(purpose: Purpose, trip: TripData, history: seq<TripData>, now: Instant, geo: Geodesic): real
  {
    if history != [] then HistoryScoreOf(purpose, trip, history, now, geo) else 1.0
  }

  /** Every base score is positive. */
  lemma BaseScorePositive(purpose: Purpose, trip: TripData, history: seq<TripData>, now: Instant, geo: Geodesic)
    ensures BaseScore(purpose, trip, history, now, geo) > 0.0
  {
    if purpose.Patterned() {
      var t := TimeScoreOf(purpose, trip.startTime, WeekdayFor(trip));
      var l := LocationScoreOf(purpose, DestOf(trip));
      var m := TripModeScore(purpose, trip);
      var h := HistoryFactor(purpose, trip, history, now, geo);
      TimeScoreRange(purpose, trip.startTime, WeekdayFor(trip));
      HistoryFactorPositive(purpose, trip, history, now, geo);
      TimesPositive(t, l);
      TimesPositive(Times(t, l), m);
      TimesPositive(Times(Times(t, l), m), h);
    }
  }

  lemma HistoryFactorPositive(purpose: Purpose, trip: TripData, history: seq<TripData>, now: Instant, geo: Geodesic)
    ensures HistoryFactor(purpose, trip, history, now, geo) > 0.0
  {
    if history != [] {
      HistoryScoreRange(purpose, trip, history, now, geo);
    }
  }

  lemma TimesPositive(a: real, b: real)
    requires a > 0.0 && b > 0.0
    ensures Times(a, b) > 0.0
  {
    MulPositive(a, b);
  }

  /** The base scores in the dictionary's order: patterned purposes first, then the others. */
  function BaseScores(trip: TripData, history: seq<TripData>, now: Instant, geo: Geodesic): (r: seq<real>)
    ensures |r| == |AllPurposes|
  {
    seq(|AllPurposes|, k requires 0 <= k < |AllPurposes| => BaseScore(AllPurposes[k], trip, history, now, geo))
  }

  /** The four purposes without a time pattern always score 0.1 before noise. */
  lemma OtherPurposesBase(trip: TripData, history: seq<TripData>, now: Instant, geo: Geodesic)
    ensures forall k :: |ScoredPurposes| <= k < |AllPurposes| ==> BaseScores(trip, history, now, geo)[k] == 0.1
    ensures forall k :: 0 <= k < |AllPurposes| ==> BaseScores(trip, history, now, geo)[k] > 0.0
  {
    forall k | 0 <= k < |AllPurposes|
      ensures BaseScores(trip, history, now, geo)[k] > 0.0
    {
      BaseScorePositive(AllPurposes[k], trip, history, now, geo);
    }
  }

  /** Each score times the noise drawn for its purpose. */
  function WithNoise(base: seq<real>, noise: Noise): (r: seq<real>)
    requires |base| == |AllPurposes|
    ensures |r| == |base|
  {
    seq(|base|, k requires 0 <= k < |base| => base[k] * noise(AllPurposes[k]))
  }

  /** The index of the first maximal element (Python's `max` over an insertion-ordered dict). */
  function ArgMax(s: seq<real>): (r: nat)
    requires s != []
    ensures r < |s|
    ensures forall k :: 0 <= k < |s| ==> s[k] <= s[r]
    ensures forall k :: 0 <= k < r ==> s[k] < s[r]
  {
    if |s| == 1 then 0
    else
      var i := ArgMax(s[..|s| - 1]);
      if s[|s| - 1] > s[i] then |s| - 1 else i
  }

  function Sum(s: seq<real>): real
  {
    if s == [] then 0.0 else Sum(s[..|s| - 1]) + s[|s| - 1]
  }

  /** The predicted purpose and the confidence before clamping. */
  function Prediction(scores: seq<real>): (Purpose, real)
    requires |scores| == |AllPurposes|
  {
    var i := ArgMax(scores);
    var total := Sum(scores);
    (AllPurposes[i], if total > 0.0 then scores[i] / total else 0.3)
  }

  lemma {:induction false} SumAtLeastPart(s: seq<real>, i: int)
    requires forall k :: 0 <= k < |s| ==> s[k] > 0.0
    requires 0 <= i < |s|
    ensures Sum(s) >= s[i] && Sum(s) > 0.0
  {
    if i < |s| - 1 {
      SumAtLeastPart(s[..|s| - 1], i);
    } else if |s| > 1 {
      SumAtLeastPart(s[..|s| - 1], 0);
    }
  }

  /**
   * With positive scores and positive noise the raw confidence is the
   * winner's share of the total, above 0 and at most 1; the winner's score
   * is maximal and no earlier purpose ties it.
   */
  lemma PredictionShare(base: seq<real>, noise: Noise)
    requires |base| == |AllPurposes|
    requires forall k :: 0 <= k < |base| ==> base[k] > 0.0
    requires forall p :: noise(p) > 0.0
    ensures var scores := WithNoise(base, noise);
      var i := ArgMax(scores);
      Sum(scores) > 0.0 &&
      Prediction(scores) == (AllPurposes[i], scores[i] / Sum(scores)) &&
      0.0 < scores[i] / Sum(scores) <= 1.0 &&
      (forall k :: 0 <= k < |scores| ==> scores[k] <= scores[i]) &&
      (forall k :: 0 <= k < i ==> scores[k] < scores[i])
  {
    var scores := WithNoise(base, noise);
    forall k | 0 <= k < |scores|
      ensures scores[k] > 0.0
    {
      MulPositive(base[k], noise(AllPurposes[k]));
    }
    var i := ArgMax(scores);
    SumAtLeastPart(scores, i);
    var total := Sum(scores);
    assert scores[i] / total <= 1.0 by {
      assert scores[i] <= total;
    }
  }

  method ScoreScored(trip: TripData, history: seq<TripData>, now: Instant, geo: Geodesic, purpose: Purpose) returns (score: real)
    requires purpose.Patterned()
    ensures score == BaseScore(purpose, trip, history, now, geo)
  {
    var weekday := WeekdayFor(trip);
    var time := CalculateTimeScore(purpose, trip.startTime, weekday);
    var location := CalculateLocationScore(purpose, DestOf(trip));
    var mode := TripModeScore(purpose, trip);
    var h := 1.0;
    if history != [] {
      h := CalculateHistoryScore(purpose, trip, history, now, geo);
    }
    score := Times(Times(Times(time, location), mode), h);
  }

  /** The scores of all purposes before noise, patterned ones first. */
  method ScoreAll(trip: TripData, history: seq<TripData>, now: Instant, geo: Geodesic) returns (scores: seq<real>)
    ensures scores == BaseScores(trip, history, now, geo)
  {
    var names: seq<Purpose> := [];
    scores := [];
    for i := 0 to |ScoredPurposes|
      invariant names == ScoredPurposes[..i] && |scores| == |names|
      invariant forall m :: 0 <= m < |scores| ==> scores[m] == BaseScore(names[m], trip, history, now, geo)
    {
      var s := ScoreScored(trip, history, now, geo, ScoredPurposes[i]);
      assert ScoredPurposes[..i + 1] == names + [ScoredPurposes[i]];
      names := names + [ScoredPurposes[i]];
      scores := scores + [s];
    }
    for i := 0 to |OtherPurposes|
      invariant names == ScoredPurposes + OtherPurposes[..i] && |scores| == |names|
      invariant forall m :: 0 <= m < |scores| ==> scores[m] == BaseScore(names[m], trip, history, now, geo)
    {
      var p := OtherPurposes[i];
      if p !in ScoredPurposes {
        assert ScoredPurposes + OtherPurposes[..i + 1] == names + [p];
        names := names + [p];
        scores := scores + [0.1];
      }
    }
    assert names == AllPurposes;
  }

  method ApplyNoise(base: seq<real>, noise: Noise) returns (scores: seq<real>)
    requires |base| == |AllPurposes|
    ensures scores == WithNoise(base, noise)
  {
    scores := base;
    for k := 0 to |scores|
      invariant |scores| == |base|
      invariant forall m :: 0 <= m < k ==> scores[m] == base[m] * noise(AllPurposes[m])
      invariant forall m :: k <= m < |scores| ==> scores[m] == base[m]
    {
      scores := scores[k := scores[k] * noise(AllPurposes[k])];
    }
    assert forall m :: 0 <= m < |scores| ==> scores[m] == WithNoise(base, noise)[m];
    assert scores == WithNoise(base, noise);
  }

  /**
   * Scores every purpose, applies the noise, picks the first maximal score
   * and clamps the winner's share of the total to [0.2, 0.9].
   */
  method PredictPurpose(trip: TripData, history: seq<TripData>, now: Instant, geo: Geodesic, noise: Noise)
    returns (purpose: Purpose, confidence: real)
    ensures var scores := WithNoise(BaseScores(trip, history, now, geo), noise);
      purpose == Prediction(scores).0 && confidence == Clamp(0.2, 0.9, Prediction(scores).1)
    ensures 0.2 <= confidence <= 0.9
  {
    var base := ScoreAll(trip, history, now, geo);
    var scores := ApplyNoise(base, noise);
    var best := FirstMax(scores);
    var total := Total(scores);
    purpose := AllPurposes[best];
    confidence := if total > 0.0 then scores[best] / total else 0.3;
    confidence := Clamp(0.2, 0.9, confidence);
  }

  method FirstMax(s: seq<real>) returns (best: nat)
    requires s != []
    ensures best == ArgMax(s)
  {
    best := 0;
    for i := 1 to |s|
      invariant best == ArgMax(s[..i])
    {
      assert s[..i + 1][..i] == s[..i];
      if s[i] > s[best] {
        best := i;
      }
    }
    assert s[..|s|] == s;
  }

  method Total(s: seq<real>) returns (total: real)
    ensures total == Sum(s)
  {
    total := 0.0;
    for i := 0 to |s|
      invariant total == Sum(s[..i])
    {
      assert s[..i + 1][..i] == s[..i];
      total := total + s[i];
    }
    assert s[..|s|] == s;
  }

  // ---------------------------------------------------------------------
  // Destination clustering
  // ---------------------------------------------------------------------

  /** Destinations are grouped by their coordinates printed to four decimals. */
  type ClusterKey = (real, real)

  function KeyOf(lat: real, lng: real): ClusterKey
  {
    (RoundTo(lat, 10000), RoundTo(lng, 10000))
  }

  /** A trip counts only when both destination coordinates are present and non-zero. */
  predicate Kept(t: TripData)
  {
    t.destLat.Some? && t.destLat.value != 0.0 && t.destLng.Some? && t.destLng.value != 0.0
  }

  function TripKey(t: TripData): ClusterKey
    requires Kept(t)
  {
    KeyOf(t.destLat.value, t.destLng.value)
  }

  /** A cluster keeps the coordinates of its first visit, its visit count and visits per purpose. */
  datatype Cluster = Cluster(lat: real, lng: real, visits: nat, purposes: map<string, nat>)

  function AddVisit(clusters: map<ClusterKey, Cluster>, t: TripData): map<ClusterKey, Cluster>
    requires Kept(t)
  {
    var key := TripKey(t);
    var c := if key in clusters then clusters[key] else Cluster(t.destLat.value, t.destLng.value, 0, map[]);
    var p := PurposeOf(t);
    clusters[key := c.(visits := c.visits + 1, purposes := c.purposes[p := (if p in c.purposes then c.purposes[p] else 0) + 1])]
  }

  function ClustersOf(trips: seq<TripData>): map<ClusterKey, Cluster>
  {
    if trips == [] then map[]
    else
      var t := trips[|trips| - 1];
      var before := ClustersOf(trips[..|trips| - 1]);
      if Kept(t) then AddVisit(before, t) else before
  }

  function AddLocation(locations: map<string, seq<(real, real)>>, t: TripData): map<string, seq<(real, real)>>
    requires Kept(t)
  {
    var p := PurposeOf(t);
    locations[p := (if p in locations then locations[p] else []) + [(t.destLat.value, t.destLng.value)]]
  }

  function LocationsOf(trips: seq<TripData>): map<string, seq<(real, real)>>
  {
    if trips == [] then map[]
    else
      var t := trips[|trips| - 1];
      var before := LocationsOf(trips[..|trips| - 1]);
      if Kept(t) then AddLocation(before, t) else before
  }

  /** Kept trips with the given key, and with the given key and purpose. */
  function VisitsAt(trips: seq<TripData>, key: ClusterKey): nat
  {
    if trips == [] then 0
    else
      var t := trips[|trips| - 1];
      VisitsAt(trips[..|trips| - 1], key) + (if Kept(t) && TripKey(t) == key then 1 else 0)
  }

  function VisitsFor(trips: seq<TripData>, key: ClusterKey, purpose: string): nat
  {
    if trips == [] then 0
    else
      var t := trips[|trips| - 1];
      VisitsFor(trips[..|trips| - 1], key, purpose) + (if Kept(t) && TripKey(t) == key && PurposeOf(t) == purpose then 1 else 0)
  }

  /** Kept trips with the given purpose. */
  function TripsFor(trips: seq<TripData>, purpose: string): nat
  {
    if trips == [] then 0
    else
      var t := trips[|trips| - 1];
      TripsFor(trips[..|trips| - 1], purpose) + (if Kept(t) && PurposeOf(t) == purpose then 1 else 0)
  }

  /** Keys of the kept trips. */
  function KeysOf(trips: seq<TripData>): set<ClusterKey>
  {
    set t | t in trips && Kept(t) :: TripKey(t)
  }

  /** The clusters are exactly the keys of kept trips. */
  lemma {:induction false} ClusterKeys(trips: seq<TripData>)
    ensures ClustersOf(trips).Keys == KeysOf(trips)
  {
    if trips != [] {
      var init := trips[..|trips| - 1];
      var t := trips[|trips| - 1];
      ClusterKeys(init);
      assert trips == init + [t];
      assert forall u :: u in trips <==> u in init || u == t;
      if Kept(t) {
        assert KeysOf(trips) == KeysOf(init) + {TripKey(t)};
      } else {
        assert KeysOf(trips) == KeysOf(init);
      }
    }
  }

  /** Each cluster counts the kept trips with its key; a key without a cluster has none. */
  lemma {:induction false} ClusterVisits(trips: seq<TripData>)
    ensures forall key :: key in ClustersOf(trips) ==> ClustersOf(trips)[key].visits == VisitsAt(trips, key)
    ensures forall key :: key !in ClustersOf(trips) ==> VisitsAt(trips, key) == 0
  {
    if trips != [] {
      ClusterVisits(trips[..|trips| - 1]);
    }
  }

  /** Per purpose, each cluster counts the kept trips with its key and that purpose. */
  lemma {:induction false} ClusterPurposes(trips: seq<TripData>)
    ensures forall key, p :: key in ClustersOf(trips) ==>
      (p in ClustersOf(trips)[key].purposes <==> VisitsFor(trips, key, p) > 0)
    ensures forall key, p :: key in ClustersOf(trips) && p in ClustersOf(trips)[key].purposes ==>
      ClustersOf(trips)[key].purposes[p] == VisitsFor(trips, key, p)
  {
    if trips != [] {
      var init := trips[..|trips| - 1];
      ClusterPurposes(init);
      ClusterVisits(init);
      forall key, p | key !in ClustersOf(init)
        ensures VisitsFor(init, key, p) == 0
      {
        VisitsForAtMostVisits(init, key, p);
      }
    }
  }

  lemma {:induction false} VisitsForAtMostVisits(trips: seq<TripData>, key: ClusterKey, purpose: string)
    ensures VisitsFor(trips, key, purpose) <= VisitsAt(trips, key)
  {
    if trips != [] {
      VisitsForAtMostVisits(trips[..|trips| - 1], key, purpose);
    }
  }

  /** Every purpose of a kept trip has its list of destinations, one per such trip. */
  lemma {:induction false} LocationsCount(trips: seq<TripData>)
    ensures forall p :: p in LocationsOf(trips) <==> TripsFor(trips, p) > 0
    ensures forall p :: p in LocationsOf(trips) ==> |LocationsOf(trips)[p]| == TripsFor(trips, p)
  {
    if trips != [] {
      LocationsCount(trips[..|trips| - 1]);
    }
  }

  /** A destination common to a purpose: the centroid of its visits and their number. */
  datatype CommonDestination = CommonDestination(lat: real, lng: real, visitCount: nat)

  datatype LocationAnalysis = LocationAnalysis(
    clusters: map<ClusterKey, Cluster>,
    commonDestinations: map<string, CommonDestination>,
    totalDestinations: nat)

  function Centroid(locations: seq<(real, real)>): CommonDestination
    requires locations != []
  {
    CommonDestination(
      SumOf(locations, (l: (real, real)) => l.0) / |locations| as real,
      SumOf(locations, (l: (real, real)) => l.1) / |locations| as real,
      |locations|)
  }

  /** Purposes with at least three located trips, each with its centroid. */
  function CommonDestinations(locations: map<string, seq<(real, real)>>): map<string, CommonDestination>
  {
    map p | p in locations && |locations[p]| >= 3 :: Centroid(locations[p])
  }

  function LocationAnalysisOf(trips: seq<TripData>): LocationAnalysis
  {
    var clusters := ClustersOf(trips);
    LocationAnalysis(clusters, CommonDestinations(LocationsOf(trips)), |clusters.Keys|)
  }

  /**
   * The analysis counts one destination per distinct key of a kept trip,
   * and lists a purpose as common exactly when at least three kept trips
   * have it, with that many visits.
   */
  lemma AnalysisCounts(trips: seq<TripData>)
    ensures LocationAnalysisOf(trips).totalDestinations == |KeysOf(trips)|
    ensures forall p :: p in LocationAnalysisOf(trips).commonDestinations <==> TripsFor(trips, p) >= 3
    ensures forall p :: p in LocationAnalysisOf(trips).commonDestinations ==>
      LocationAnalysisOf(trips).commonDestinations[p].visitCount == TripsFor(trips, p)
  {
    ClusterKeys(trips);
    LocationsCount(trips);
  }

  /** A trip without both coordinates leaves the analysis as it was. */
  lemma SkippedTripIgnored(trips: seq<TripData>, t: TripData)
    requires !Kept(t)
    ensures LocationAnalysisOf(trips + [t]) == LocationAnalysisOf(trips)
  {
    assert (trips + [t])[..|trips|] == trips;
  }

  method AnalyzeLocationPatterns(trips: seq<TripData>) returns (a: LocationAnalysis)
    ensures a == LocationAnalysisOf(trips)
  {
    var clusters: map<ClusterKey, Cluster> := map[];
    var locations: map<string, seq<(real, real)>> := map[];
    for i := 0 to |trips|
      invariant clusters == ClustersOf(trips[..i])
      invariant locations == LocationsOf(trips[..i])
    {
      assert trips[..i + 1][..i] == trips[..i];
      var t := trips[i];
      if t.destLat.Some? && t.destLat.value != 0.0 && t.destLng.Some? && t.destLng.value != 0.0 {
        var key := KeyOf(t.destLat.value, t.destLng.value);
        if key !in clusters {
          clusters := clusters[key := Cluster(t.destLat.value, t.destLng.value, 0, map[])];
        }
        var purpose := PurposeOf(t);
        var c := clusters[key];
        var n := if purpose in c.purposes then c.purposes[purpose] else 0;
        clusters := clusters[key := c.(visits := c.visits + 1, purposes := c.purposes[purpose := n + 1])];
        if purpose !in locations {
          locations := locations[purpose := []];
        }
        locations := locations[purpose := locations[purpose] + [(t.destLat.value, t.destLng.value)]];
      }
    }
    assert trips[..|trips|] == trips;
    a := LocationAnalysis(clusters, CommonDestinations(locations), |clusters.Keys|);
  }
}
