/**
 * The machine-learning transport-mode detector's deterministic parts: the
 * feature vector it feeds the models, its richer movement analysis, its
 * segmentation, the weather-condition code and the training guard. Model
 * loading, scaling, training and prediction are not modelled; the mode a
 * segment is given arrives as a parameter.
 */
module AdvancedModeDetector {
  import opened Common
  import opened Movement

  // ---------------------------------------------------------------------
  // Weather-condition encoding
  // ---------------------------------------------------------------------

  const WeatherCodes: map<string, int> := map[
    "clear" := 0, "sunny" := 0, "partly_cloudy" := 1, "cloudy" := 2, "overcast" := 2,
    "mist" := 3, "fog" := 3, "drizzle" := 4, "rain" := 5, "heavy_rain" := 6,
    "thunderstorm" := 7, "snow" := 8, "sleet" := 9, "hail" := 10]

  /** Lower-case with spaces turned into underscores. */
  function NormalizeCondition(condition: string): (r: string)
    ensures |r| == |condition|
  {
    ReplaceChar(Lower(condition), ' ', '_')
  }

  /** The code of a weather condition, 0 for anything the table does not know. */
  function EncodeWeatherCondition(condition: string): (r: int)
    ensures 0 <= r <= 10
  {
    var key := NormalizeCondition(condition);
    if key in WeatherCodes then WeatherCodes[key] else 0
  }

  /** Normalising twice changes nothing, so a normalised condition keeps its code. */
  lemma NormalizeIdempotent(condition: string)
    ensures NormalizeCondition(NormalizeCondition(condition)) == NormalizeCondition(condition)
    ensures EncodeWeatherCondition(NormalizeCondition(condition)) == EncodeWeatherCondition(condition)
  {
    var once := NormalizeCondition(condition);
    var twice := NormalizeCondition(once);
    forall i | 0 <= i < |condition|
      ensures twice[i] == once[i]
    {
      assert LowerChar(LowerChar(condition[i])) == LowerChar(condition[i]);
    }
  }

  // ---------------------------------------------------------------------
  // Calendar flags
  // ---------------------------------------------------------------------

  /** Saturday and Sunday (weekday 5 and 6 with Monday = 0). */
  predicate IsWeekend(weekday: int)
  {
    weekday >= 5
  }

  /** 07:00-10:59 and 16:00-19:59. */
  predicate IsRushHour(hour: int)
  {
    7 <= hour <= 10 || 16 <= hour <= 19
  }

  function Flag(b: bool): real
  {
    if b then 1.0 else 0.0
  }

  // ---------------------------------------------------------------------
  // Movement analysis
  // ---------------------------------------------------------------------

  /**
   * Gaps of the step after each slow step, recorded when a next fix exists
   * and that gap exceeds 30 seconds.
   */
  function StopDurations(w: seq<GpsPoint>, n: nat, dist: Distance): (r: seq<real>)
    requires n <= |w|
    ensures forall k :: 0 <= k < |r| ==> r[k] > 30.0
  {
    if n <= 1 then []
    else
      var i := n - 1;
      StopDurations(w, i, dist) +
        (if IsSlowStep(w, i, dist) && i + 1 < |w| && Gap(w, i + 1) > 30 then [Gap(w, i + 1) as real] else [])
  }

  /** Change of speed per second between consecutive recorded speeds. */
  function Accelerations(w: seq<GpsPoint>, n: nat, dist: Distance): (r: seq<real>)
    requires n <= |w|
  {
    if n <= 1 then []
    else
      var i := n - 1;
      var sp := Speeds(w, n, dist);
      Accelerations(w, i, dist) +
        (if Gap(w, i) > 0 && |sp| >= 2 then [(sp[|sp| - 1] - sp[|sp| - 2]) / Gap(w, i) as real] else [])
  }

  function AbsAll(s: seq<real>): (r: seq<real>)
    ensures |r| == |s| && forall k :: 0 <= k < |s| ==> r[k] == Abs(s[k]) && r[k] >= 0.0
  {
    seq(|s|, k requires 0 <= k < |s| => Abs(s[k]))
  }

  /** `1 / (1 + 0.1 * changes + 0.05 * stops)` kept within [0.1, 1.0]. */
  function SmoothnessScore(changes: nat, stops: nat): (r: real)
    ensures 0.1 <= r <= 1.0
    ensures changes == 0 && stops == 0 ==> r == 1.0
  {
    Clamp(0.1, 1.0, 1.0 / (1.0 + 0.1 * changes as real + 0.05 * stops as real))
  }

  datatype Analysis = Analysis(
    avgSpeed: real,
    maxSpeed: real,
    stopsCount: nat,
    directionChanges: nat,
    smoothnessScore: real,
    avgAcceleration: real,
    maxAcceleration: real,
    avgStopDuration: real,
    stopCount: nat)

  /**
   * The analysis of a track: speeds, slow steps, stop durations and
   * accelerations over the steps with a positive gap, and turns. Fewer
   * than two fixes give the neutral result (the source omits the last two
   * keys there; they read as 0).
   */
  function AnalysisOf(w: seq<GpsPoint>, dist: Distance, bearing: Bearing): (a: Analysis)
    ensures |w| < 2 ==> a == Analysis(0.0, 0.0, 0, 0, 0.5, 0.0, 0.0, 0.0, 0)
    ensures 0.1 <= a.smoothnessScore <= 1.0
  {
    if |w| < 2 then Analysis(0.0, 0.0, 0, 0, 0.5, 0.0, 0.0, 0.0, 0)
    else
      var speeds := Speeds(w, |w|, dist);
      var stops := SlowSteps(w, |w|, dist);
      var changes := Turns(w, |w|, bearing);
      var accelerations := AbsAll(Accelerations(w, |w|, dist));
      var durations := StopDurations(w, |w|, dist);
      Analysis(Mean(speeds), MaxOrZero(speeds), stops, changes, SmoothnessScore(changes, stops),
               Mean(accelerations), MaxOrZero(accelerations), Mean(durations), |durations|)
  }

  /** Each recorded stop duration belongs to a slow step. */
  lemma {:induction false} StopDurationsAtMostStops(w: seq<GpsPoint>, n: nat, dist: Distance)
    requires n <= |w|
    ensures |StopDurations(w, n, dist)| <= SlowSteps(w, n, dist)
  {
    if n > 1 {
      StopDurationsAtMostStops(w, n - 1, dist);
    }
  }

  /** One acceleration per recorded speed after the first. */
  lemma {:induction false} AccelerationsCount(w: seq<GpsPoint>, n: nat, dist: Distance)
    requires n <= |w|
    ensures |Speeds(w, n, dist)| == 0 ==> |Accelerations(w, n, dist)| == 0
    ensures |Speeds(w, n, dist)| > 0 ==> |Accelerations(w, n, dist)| == |Speeds(w, n, dist)| - 1
  {
    if n > 1 {
      AccelerationsCount(w, n - 1, dist);
    }
  }

  /**
   * What the analysis promises beyond its definition: averages never exceed
   * maxima, speeds and stop durations are non-negative or long, at most one
   * stop duration per stop, and one acceleration per speed after the first.
   */
  lemma AnalysisBounds(w: seq<GpsPoint>, dist: Distance, bearing: Bearing)
    requires forall p, q :: dist(p, q) >= 0.0
    ensures var a := AnalysisOf(w, dist, bearing);
      a.avgSpeed <= a.maxSpeed && 0.0 <= a.avgSpeed &&
      0.0 <= a.avgAcceleration <= a.maxAcceleration &&
      a.stopCount <= a.stopsCount &&
      (a.stopCount > 0 ==> a.avgStopDuration > 30.0)
  {
    if |w| >= 2 {
      var speeds := Speeds(w, |w|, dist);
      MeanAtMostMax(speeds);
      forall k | 0 <= k < |speeds| ensures speeds[k] >= 0.0 {
        SpeedsNonNegative(w, |w|, dist, k);
      }
      MeanNonNegative(speeds);
      var acc := AbsAll(Accelerations(w, |w|, dist));
      MeanAtMostMax(acc);
      MeanNonNegative(acc);
      StopDurationsAtMostStops(w, |w|, dist);
      var durations := StopDurations(w, |w|, dist);
      if durations != [] {
        SumOfMoreThan(durations, 30.0);
      }
    }
  }

  lemma {:induction false} SpeedsNonNegative(w: seq<GpsPoint>, n: nat, dist: Distance, k: int)
    requires n <= |w| && forall p, q :: dist(p, q) >= 0.0
    requires 0 <= k < |Speeds(w, n, dist)|
    ensures Speeds(w, n, dist)[k] >= 0.0
  {
    var s := Speeds(w, n, dist);
    if k < |Speeds(w, n - 1, dist)| {
      SpeedsNonNegative(w, n - 1, dist, k);
      assert s[k] == Speeds(w, n - 1, dist)[k];
    } else {
      assert s[k] == StepSpeed(w, n - 1, dist);
    }
  }

  /** A mean of values all above `b` is above `b`. */
  lemma {:induction false} SumOfMoreThan(s: seq<real>, b: real)
    requires s != [] && forall k :: 0 <= k < |s| ==> s[k] > b
    ensures Mean(s) > b
  {
    SumAbove(s, b);
  }

  lemma {:induction false} SumAbove(s: seq<real>, b: real)
    requires s != [] && forall k :: 0 <= k < |s| ==> s[k] > b
    ensures SumOf(s, x => x) > |s| as real * b
  {
    if |s| > 1 {
      SumAbove(s[..|s| - 1], b);
    }
  }

  /** What the analysis loop has gathered after the steps before fix `n`. */
  datatype Gathered = Gathered(speeds: seq<real>, stopsCount: nat, stopDurations: seq<real>, accelerations: seq<real>)

  function GatheredUpTo(w: seq<GpsPoint>, n: nat, dist: Distance): Gathered
    requires n <= |w|
  {
    Gathered(Speeds(w, n, dist), SlowSteps(w, n, dist), StopDurations(w, n, dist), Accelerations(w, n, dist))
  }

  /** One pass of the analysis loop, over the step into fix `i`. */
  method AnalyzeStep(w: seq<GpsPoint>, dist: Distance, i: nat, g: Gathered) returns (g': Gathered)
    requires 1 <= i < |w| && g == GatheredUpTo(w, i, dist)
    ensures g' == GatheredUpTo(w, i + 1, dist)
  {
    var timeDiffSeconds := w[i].timestamp - w[i - 1].timestamp;
    if timeDiffSeconds > 0 {
      var speed := dist(w[i - 1], w[i]) / (timeDiffSeconds as real / 3600.0);
      assert speed == StepSpeed(w, i, dist) by {
        SpeedForms(dist(w[i - 1], w[i]), timeDiffSeconds);
      }
      var speeds := g.speeds + [speed];
      MovingStep(w, dist, i);
      var stopsCount, stopDurations := StopStep(w, dist, i, speed, g.stopsCount, g.stopDurations);
      var accelerations := AccelerationStep(w, dist, i, speeds, g.accelerations);
      g' := Gathered(speeds, stopsCount, stopDurations, accelerations);
    } else {
      StillStep(w, dist, i);
      g' := g;
    }
  }

  /** A step with a positive gap records its speed. */
  lemma MovingStep(w: seq<GpsPoint>, dist: Distance, i: nat)
    requires 1 <= i < |w| && Gap(w, i) > 0
    ensures Speeds(w, i + 1, dist) == Speeds(w, i, dist) + [StepSpeed(w, i, dist)]
  {
  }

  /** The stop bookkeeping of a step with a positive gap: a slow step counts, and its next gap over 30 s is kept. */
  method StopStep(w: seq<GpsPoint>, dist: Distance, i: nat, speed: real, stops: nat, durations: seq<real>)
    returns (stops': nat, durations': seq<real>)
    requires 1 <= i < |w| && Gap(w, i) > 0 && speed == StepSpeed(w, i, dist)
    requires stops == SlowSteps(w, i, dist) && durations == StopDurations(w, i, dist)
    ensures stops' == SlowSteps(w, i + 1, dist) && durations' == StopDurations(w, i + 1, dist)
  {
    stops', durations' := stops, durations;
    if speed < 1.0 {
      stops' := stops' + 1;
      if i + 1 < |w| {
        var stopDuration := w[i + 1].timestamp - w[i].timestamp;
        if stopDuration > 30 {
          durations' := durations' + [stopDuration as real];
        }
      }
    }
  }

  /** The acceleration of a step with a positive gap, recorded once there are two speeds. */
  method AccelerationStep(w: seq<GpsPoint>, dist: Distance, i: nat, speeds: seq<real>, accelerations: seq<real>)
    returns (accelerations': seq<real>)
    requires 1 <= i < |w| && Gap(w, i) > 0
    requires speeds == Speeds(w, i + 1, dist) && accelerations == Accelerations(w, i, dist)
    ensures accelerations' == Accelerations(w, i + 1, dist)
  {
    accelerations' := accelerations;
    if |speeds| >= 2 {
      var acceleration := (speeds[|speeds| - 1] - speeds[|speeds| - 2]) / (w[i].timestamp - w[i - 1].timestamp) as real;
      accelerations' := accelerations' + [acceleration];
    }
  }

  /** A step without a positive gap gathers nothing. */
  lemma StillStep(w: seq<GpsPoint>, dist: Distance, i: nat)
    requires 1 <= i < |w| && Gap(w, i) <= 0
    ensures GatheredUpTo(w, i + 1, dist) == GatheredUpTo(w, i, dist)
  {
    assert !IsSlowStep(w, i, dist);
    assert Speeds(w, i + 1, dist) == Speeds(w, i, dist);
  }

  /** Runs the analysis loop and summarises what it gathered. */
  method AnalyzeWaypoints(w: seq<GpsPoint>, dist: Distance, bearing: Bearing) returns (a: Analysis)
    ensures a == AnalysisOf(w, dist, bearing)
  {
    if |w| < 2 {
      return Analysis(0.0, 0.0, 0, 0, 0.5, 0.0, 0.0, 0.0, 0);
    }
    var g := Gathered([], 0, [], []);
    var i := 1;
    while i < |w|
      invariant 1 <= i <= |w|
      invariant g == GatheredUpTo(w, i, dist)
    {
      g := AnalyzeStep(w, dist, i, g);
      i := i + 1;
    }
    var changes := CountDirectionChanges(w, bearing);
    var absAcc := AbsAll(g.accelerations);
    a := Analysis(Mean(g.speeds), MaxOrZero(g.speeds), g.stopsCount, changes,
                  SmoothnessScore(changes, g.stopsCount), Mean(absAcc), MaxOrZero(absAcc),
                  Mean(g.stopDurations), |g.stopDurations|);
  }

  // ---------------------------------------------------------------------
  // Feature vector
  // ---------------------------------------------------------------------

  /** The names under which the trip's features are collected. */
  datatype Feature =
    | DistanceKm | DurationMinutes | AvgSpeedKmh | MaxSpeed | StopsCount | DirectionChanges
    | TimeOfDay | DayOfWeek | IsWeekendFlag | IsRushHourFlag | AvgAcceleration | MaxAcceleration
    | WeatherTemp | WeatherCondition | IsPrecipitation | RouteType

  /** The model's input columns, in order. */
  const FeatureColumns: seq<Feature> := [
    DistanceKm, DurationMinutes, AvgSpeedKmh, MaxSpeed, StopsCount, DirectionChanges,
    TimeOfDay, DayOfWeek, WeatherTemp, WeatherCondition, RouteType]

  /** A dictionary entry: missing, present but None, or a value. */
  datatype Entry<T> = Missing | Null | Present(value: T)
  {
    /** `d.get(key, default)`: the default for a missing key, None for a null one. */
    function Get(default: T): Option<T>
    {
      match this
      case Missing => Some(default)
      case Null => None
      case Present(v) => Some(v)
    }
  }

  /**
   * Weather as sent with a trip; None for a temperature the dictionary
   * lacks. A null condition or precipitation is told apart from a missing one.
   */
  datatype Weather = Weather(temperature: Option<real>, condition: Entry<string>, precipitation: Entry<real>)

  /** The start time: absent or falsy, an instant, or a text `fromisoformat` rejects. */
  datatype StartField = NoStart | StartAt(instant: Instant) | Unparseable

  /**
   * The trip dictionary; None for a key it lacks, and a null duration told
   * apart from a missing one. An empty weather dictionary is None.
   */
  datatype TripInput = TripInput(
    distanceKm: Option<real>,
    durationMinutes: Entry<real>,
    startTime: StartField,
    timeOfDay: Option<real>,
    waypoints: seq<GpsPoint>,
    weather: Option<Weather>,
    routeType: Option<real>)

  /**
   * The inputs on which the `try` block of `preprocess_data` raises: a
   * null duration compared with 0, a start time that does not parse, or a
   * null weather condition (lower-cased) or precipitation (compared with 0).
   */
  predicate Raises(t: TripInput)
  {
    t.durationMinutes.Null? || t.startTime.Unparseable? ||
    (t.weather.Some? && (t.weather.value.condition.Null? || t.weather.value.precipitation.Null?))
  }

  /** `distance / duration * 60` km/h for a positive duration, else 0. */
  function AvgSpeed(distanceKm: real, durationMinutes: real): (r: real)
    ensures durationMinutes <= 0.0 ==> r == 0.0
    ensures durationMinutes > 0.0 ==> r * durationMinutes == distanceKm * 60.0
  {
    if durationMinutes > 0.0 then distanceKm / durationMinutes * 60.0 else 0.0
  }

  /** Every feature the source collects for a trip (it sets them all, so none is ever absent). */
  datatype FeatureSet = FeatureSet(
    distanceKm: real, durationMinutes: real, avgSpeed: real, maxSpeed: real,
    stopsCount: real, directionChanges: real, timeOfDay: real, dayOfWeek: real,
    isWeekend: real, isRushHour: real, avgAcceleration: real, maxAcceleration: real,
    weatherTemp: real, weatherCondition: real, isPrecipitation: real, routeType: real)

  /** The value collected under a feature name. */
  function Get(f: FeatureSet, name: Feature): real
  {
    match name
    case DistanceKm => f.distanceKm
    case DurationMinutes => f.durationMinutes
    case AvgSpeedKmh => f.avgSpeed
    case MaxSpeed => f.maxSpeed
    case StopsCount => f.stopsCount
    case DirectionChanges => f.directionChanges
    case TimeOfDay => f.timeOfDay
    case DayOfWeek => f.dayOfWeek
    case IsWeekendFlag => f.isWeekend
    case IsRushHourFlag => f.isRushHour
    case AvgAcceleration => f.avgAcceleration
    case MaxAcceleration => f.maxAcceleration
    case WeatherTemp => f.weatherTemp
    case WeatherCondition => f.weatherCondition
    case IsPrecipitation => f.isPrecipitation
    case RouteType => f.routeType
  }

  /**
   * The features of a trip, given the analysis of its waypoints; None
   * exactly when collecting them raises.
   */
  function Features(t: TripInput, analysis: Analysis): (r: Option<FeatureSet>)
    ensures r.None? <==> Raises(t)
    ensures r.Some? ==> r.value.durationMinutes == t.durationMinutes.Get(0.0).value
    ensures r.Some? ==> r.value.avgSpeed == AvgSpeed(t.distanceKm.GetOr(0.0), r.value.durationMinutes)
    ensures r.Some? && t.startTime.StartAt? ==>
      var f := r.value;
      var st := t.startTime.instant;
      f.timeOfDay == HourOf(st) as real && f.dayOfWeek == WeekdayOf(st) as real &&
      (f.isWeekend == 1.0 <==> IsWeekend(WeekdayOf(st))) &&
      (f.isRushHour == 1.0 <==> IsRushHour(HourOf(st)))
    ensures r.Some? && t.startTime.NoStart? ==>
      var f := r.value;
      f.timeOfDay == t.timeOfDay.GetOr(12.0) && f.dayOfWeek == 0.0 && f.isWeekend == 0.0 && f.isRushHour == 0.0
    ensures r.Some? && t.waypoints == [] ==>
      var f := r.value;
      f.maxSpeed == f.avgSpeed * 1.5 && f.stopsCount == 0.0 && f.directionChanges == 0.0 &&
      f.avgAcceleration == 0.0 && f.maxAcceleration == 0.0
    ensures r.Some? && t.waypoints != [] ==>
      var f := r.value;
      f.maxSpeed == analysis.maxSpeed && f.stopsCount == analysis.stopsCount as real &&
      f.directionChanges == analysis.directionChanges as real
    ensures r.Some? && t.weather.None? ==>
      r.value.weatherTemp == 20.0 && r.value.weatherCondition == 0.0 && r.value.isPrecipitation == 0.0
    ensures r.Some? && t.weather.Some? ==>
      var f := r.value;
      var wx := t.weather.value;
      f.weatherTemp == wx.temperature.GetOr(20.0) &&
      f.weatherCondition == EncodeWeatherCondition(wx.condition.Get("clear").value) as real &&
      (f.isPrecipitation == 1.0 <==> wx.precipitation.Get(0.0).value > 0.0)
    ensures r.Some? ==> r.value.routeType == t.routeType.GetOr(0.0) && 0.0 <= r.value.weatherCondition <= 10.0
  {
    if Raises(t) then None
    else
      var distance := t.distanceKm.GetOr(0.0);
      var duration := t.durationMinutes.Get(0.0).value;
      var avgSpeed := AvgSpeed(distance, duration);
      var hasStart := t.startTime.StartAt?;
      var st := if hasStart then t.startTime.instant else 0;
      var moving := t.waypoints != [];
      var hasWeather := t.weather.Some?;
      var wx := t.weather.GetOr(Weather(None, Missing, Missing));
      Some(FeatureSet(
        distance, duration, avgSpeed,
        if moving then analysis.maxSpeed else avgSpeed * 1.5,
        if moving then analysis.stopsCount as real else 0.0,
        if moving then analysis.directionChanges as real else 0.0,
        if hasStart then HourOf(st) as real else t.timeOfDay.GetOr(12.0),
        if hasStart then WeekdayOf(st) as real else 0.0,
        if hasStart then Flag(IsWeekend(WeekdayOf(st))) else 0.0,
        if hasStart then Flag(IsRushHour(HourOf(st))) else 0.0,
        if moving then analysis.avgAcceleration else 0.0,
        if moving then analysis.maxAcceleration else 0.0,
        if hasWeather then wx.temperature.GetOr(20.0) else 20.0,
        if hasWeather then EncodeWeatherCondition(wx.condition.Get("clear").value) as real else 0.0,
        if hasWeather then Flag(wx.precipitation.Get(0.0).value > 0.0) else 0.0,
        t.routeType.GetOr(0.0)))
  }

  /** Reads the features in column order. */
  method FeatureVector(columns: seq<Feature>, features: FeatureSet) returns (v: seq<real>)
    ensures |v| == |columns|
    ensures forall k :: 0 <= k < |columns| ==> v[k] == Get(features, columns[k])
  {
    v := [];
    for k := 0 to |columns|
      invariant |v| == k
      invariant forall j :: 0 <= j < k ==> v[j] == Get(features, columns[j])
    {
      v := v + [Get(features, columns[k])];
    }
  }

  /**
   * The unscaled model input for a trip: its features in the configured
   * column order, or eleven zeros when collecting them raises (the
   * handler at the end of `preprocess_data`).
   */
  method PreprocessData(t: TripInput, dist: Distance, bearing: Bearing) returns (v: seq<real>)
    ensures |v| == |FeatureColumns| == 11
    ensures Raises(t) ==> forall k :: 0 <= k < |v| ==> v[k] == 0.0
    ensures !Raises(t) ==>
      var f := Features(t, AnalysisOf(t.waypoints, dist, bearing));
      f.Some? && forall k :: 0 <= k < |v| ==> v[k] == Get(f.value, FeatureColumns[k])
  {
    if Raises(t) {
      return seq(|FeatureColumns|, _ => 0.0);
    }
    var analysis := AnalyzeWaypoints(t.waypoints, dist, bearing);
    var f := Features(t, analysis);
    v := FeatureVector(FeatureColumns, f.value);
  }

  // ---------------------------------------------------------------------
  // Segmentation
  // ---------------------------------------------------------------------

  datatype ModeSegment = ModeSegment(
    startIdx: int,
    endIdx: int,
    waypoints: seq<GpsPoint>,
    predictedMode: Option<string>,
    startTime: Option<Instant>,
    endTime: Option<Instant>)

  function RangesOf(segs: seq<ModeSegment>): (r: seq<Range>)
    ensures |r| == |segs|
    ensures forall k :: 0 <= k < |segs| ==> r[k] == Range(segs[k].startIdx, segs[k].endIdx)
  {
    if segs == [] then [] else RangesOf(segs[..|segs| - 1]) + [Range(segs[|segs| - 1].startIdx, segs[|segs| - 1].endIdx)]
  }

  function MakeSegment(w: seq<GpsPoint>, r: Range, segmentMode: seq<GpsPoint> -> string): (seg: ModeSegment)
    requires 0 <= r.startIdx < r.endIdx < |w|
    ensures seg.startIdx == r.startIdx && seg.endIdx == r.endIdx
    ensures seg.waypoints == w[r.startIdx..r.endIdx + 1]
    ensures seg.predictedMode == Some(segmentMode(seg.waypoints))
    ensures seg.startTime == Some(w[r.startIdx].timestamp) && seg.endTime == Some(w[r.endIdx].timestamp)
  {
    var part := w[r.startIdx..r.endIdx + 1];
    ModeSegment(r.startIdx, r.endIdx, part, Some(segmentMode(part)), Some(w[r.startIdx].timestamp), Some(w[r.endIdx].timestamp))
  }

  /** A segment holding the fixes of its range, their predicted mode, and its first and last times. */
  predicate Labelled(w: seq<GpsPoint>, seg: ModeSegment, segmentMode: seq<GpsPoint> -> string)
  {
    0 <= seg.startIdx < seg.endIdx < |w| &&
    seg.waypoints == w[seg.startIdx..seg.endIdx + 1] &&
    seg.predictedMode == Some(segmentMode(seg.waypoints)) &&
    seg.startTime == Some(w[seg.startIdx].timestamp) &&
    seg.endTime == Some(w[seg.endIdx].timestamp)
  }

  /** Attaches fixes, predicted mode and first/last times to each range. */
  function WithModes(w: seq<GpsPoint>, ranges: seq<Range>, segmentMode: seq<GpsPoint> -> string): (segs: seq<ModeSegment>)
    requires forall k :: 0 <= k < |ranges| ==> 0 <= ranges[k].startIdx < ranges[k].endIdx < |w|
    ensures RangesOf(segs) == ranges
    ensures forall k :: 0 <= k < |segs| ==> Labelled(w, segs[k], segmentMode)
  {
    var segs := seq(|ranges|, k requires 0 <= k < |ranges| => MakeSegment(w, ranges[k], segmentMode));
    assert RangesOf(segs) == ranges;
    segs
  }

  /**
   * Fewer than ten fixes make one unsplit segment without a mode (its end
   * index is -1 for an empty track). Otherwise the track is split at stops
   * of at least `minStop` seconds; steps without a positive gap are ignored.
   */
  method DetectTripSegments(w: seq<GpsPoint>, minStop: int, dist: Distance, segmentMode: seq<GpsPoint> -> string)
    returns (segs: seq<ModeSegment>)
    ensures |w| < 10 ==> segs == [ModeSegment(0, |w| - 1, w, None, None, None)]
    ensures |w| >= 10 ==> SegmentationOf(w, RangesOf(segs), minStop, dist, false)
    ensures |w| >= 10 ==> forall k :: 0 <= k < |segs| ==> Labelled(w, segs[k], segmentMode)
  {
    if |w| < 10 {
      return [ModeSegment(0, |w| - 1, w, None, None, None)];
    }
    var ranges := SegmentRanges(w, minStop, dist, false);
    TilesBounds(ranges, ranges[|ranges| - 1].endIdx);
    segs := WithModes(w, ranges, segmentMode);
  }

  // ---------------------------------------------------------------------
  // Training guard
  // ---------------------------------------------------------------------

  datatype TrainOutcome = Skipped | NotEnoughData | Train

  /** Training runs only when enabled and given at least 50 samples. */
  function TrainGuard(trainingEnabled: bool, samples: nat): (r: TrainOutcome)
    ensures r == Train <==> trainingEnabled && samples >= 50
    ensures !trainingEnabled ==> r == Skipped
  {
    if !trainingEnabled then Skipped
    else if samples < 50 then NotEnoughData
    else Train
  }
}
