/**
 * The trip record and the trip chain of the backend, with the record's
 * derived values: duration truncation, completion, the active flag and
 * the carbon-footprint estimate.
 */
module TripModels {
  import opened Common

  datatype TripStatus = Active | Completed | Cancelled | PendingReview

  /** A new trip is active unless told otherwise. */
  const DefaultStatus: TripStatus := Active

  /**
   * One row of the trips table. Optional columns are `Option`s; text
   * columns that may be blank hold `""`.
   */
  datatype TripRecord = TripRecord(
    id: nat,
    userId: nat,
    startTime: Instant,
    endTime: Option<Instant>,
    durationMinutes: Option<int>,
    originLat: real,
    originLng: real,
    originAddress: string,
    destLat: Option<real>,
    destLng: Option<real>,
    destAddress: string,
    transportMode: string,
    purpose: string,
    distanceKm: Option<real>,
    modeConfidence: real,
    purposeConfidence: real,
    companionCount: int,
    status: TripStatus,
    isValidated: bool,
    needsReview: bool,
    isPrivate: bool,
    shareForResearch: Option<bool>)

  /**
   * With an end time, the duration becomes the whole minutes between start
   * and end, truncated toward zero; without one nothing changes.
   */
  function CalculateDuration(t: TripRecord): (r: TripRecord)
    ensures r == t.(durationMinutes := r.durationMinutes)
    ensures t.endTime.None? ==> r == t
    ensures t.endTime.Some? && t.endTime.value >= t.startTime ==>
      r.durationMinutes.Some? && 0 <= r.durationMinutes.value &&
      r.durationMinutes.value * 60 <= t.endTime.value - t.startTime < (r.durationMinutes.value + 1) * 60
    ensures t.endTime.Some? && t.endTime.value < t.startTime ==>
      r.durationMinutes.Some? && r.durationMinutes.value <= 0 &&
      (r.durationMinutes.value - 1) * 60 < t.endTime.value - t.startTime <= r.durationMinutes.value * 60
  {
    match t.endTime
    case None => t
    case Some(end) => t.(durationMinutes := Some(Trunc((end - t.startTime) as real / 60.0)))
  }

  /**
   * Completion keeps an existing end time and fills a missing one with
   * `now`, recomputes the duration and marks the trip completed.
   */
  function MarkCompleted(t: TripRecord, now: Instant): (r: TripRecord)
    ensures r.endTime == Some(t.endTime.GetOr(now))
    ensures r.status == Completed && !IsActive(r)
    ensures r.durationMinutes == CalculateDuration(t.(endTime := r.endTime)).durationMinutes
    ensures r == t.(endTime := r.endTime, durationMinutes := r.durationMinutes, status := Completed)
  {
    var ended := t.(endTime := Some(t.endTime.GetOr(now)));
    CalculateDuration(ended).(status := Completed)
  }

  predicate IsActive(t: TripRecord)
  {
    t.status == Active
  }

  /** The values `transport_mode` accepts (its choices); the emission table has a row for each. */
  const TransportModes: seq<string> := ["walk", "cycle", "bike", "car", "bus", "metro", "train", "taxi", "plane", "boat", "other"]

  /** The values `purpose` accepts besides the empty text (its choices). */
  const TripPurposes: seq<string> := ["work", "school", "shopping", "leisure", "social", "medical", "exercise", "business", "other"]

  /** CO2 in kg per km of a transport mode; 0.15 for a mode not in the table. */
  function EmissionFactor(mode: string): (r: real)
    ensures 0.0 <= r <= 0.25
    ensures mode !in TransportModes ==> r == 0.15
    ensures r == 0.0 <==> mode == "walk" || mode == "cycle"
  {
    if mode == "walk" then 0.0
    else if mode == "cycle" then 0.0
    else if mode == "bike" then 0.06
    else if mode == "car" then 0.21
    else if mode == "bus" then 0.05
    else if mode == "metro" then 0.03
    else if mode == "train" then 0.04
    else if mode == "taxi" then 0.25
    else if mode == "plane" then 0.25
    else if mode == "boat" then 0.15
    else 0.15
  }

  /** Python's truthiness of an optional float column. */
  predicate HasDistance(t: TripRecord)
  {
    t.distanceKm.Some? && t.distanceKm.value != 0.0
  }

  /**
   * Distance times the mode's emission factor, to two decimals; 0 for a
   * trip without a (non-zero) distance.
   */
  function CarbonFootprint(t: TripRecord): (r: real)
    ensures !HasDistance(t) ==> r == 0.0
    ensures HasDistance(t) ==>
      var exact := t.distanceKm.value * EmissionFactor(t.transportMode);
      exact - 0.005 < r <= exact + 0.005
  {
    if !HasDistance(t) then 0.0
    else RoundTo(t.distanceKm.value * EmissionFactor(t.transportMode), 100)
  }

  /** A trip over a non-negative distance never has a negative footprint, nor more than a taxi's. */
  lemma CarbonFootprintBounds(t: TripRecord)
    requires t.distanceKm.Some? ==> t.distanceKm.value >= 0.0
    ensures 0.0 <= CarbonFootprint(t)
    ensures HasDistance(t) ==> CarbonFootprint(t) <= t.distanceKm.value * 0.25 + 0.005
    ensures t.transportMode == "walk" || t.transportMode == "cycle" ==> CarbonFootprint(t) == 0.0
  {
    if HasDistance(t) {
      var d := t.distanceKm.value;
      var f := EmissionFactor(t.transportMode);
      assert d * f <= d * 0.25 by {
        assert 0.0 <= f <= 0.25;
        assert d >= 0.0;
      }
      if f == 0.0 {
        assert (0.0 * 100.0 + 0.5).Floor == 0;
      }
    }
  }

  // ---------------------------------------------------------------------
  // Trip chains
  // ---------------------------------------------------------------------

  function DistanceOrZero(t: TripRecord): real
  {
    t.distanceKm.GetOr(0.0)
  }

  function DurationOrZero(t: TripRecord): int
  {
    t.durationMinutes.GetOr(0)
  }

  function ModesOf(trips: seq<TripRecord>): (r: seq<string>)
    ensures |r| == |trips|
    ensures forall k :: 0 <= k < |trips| ==> r[k] == trips[k].transportMode
  {
    seq(|trips|, k requires 0 <= k < |trips| => trips[k].transportMode)
  }

  /** The trips of one user on one day, with their totals and most used mode. */
  class TripChain {
    var totalDistance: real
    var totalDuration: int
    var primaryMode: string

    /** A new chain: zero totals and a blank primary mode. */
    constructor()
      ensures totalDistance == 0.0 && totalDuration == 0 && primaryMode == ""
    {
      totalDistance := 0.0;
      totalDuration := 0;
      primaryMode := "";
    }

    /**
     * Sums distances and durations, a missing value counting as 0, and
     * takes as primary mode the most frequent one, the first such on ties;
     * with no trips the primary mode stays as it was.
     */
    method CalculateTotals(trips: seq<TripRecord>)
      modifies this
      ensures totalDistance == SumOf(trips, DistanceOrZero)
      ensures totalDuration == SumInts(trips, DurationOrZero)
      ensures trips == [] ==> primaryMode == old(primaryMode)
      ensures trips != [] ==>
        primaryMode in ModesOf(trips) &&
        (forall m :: m in ModesOf(trips) ==> Count(ModesOf(trips), m) <= Count(ModesOf(trips), primaryMode)) &&
        forall i, j :: 0 <= i < j < |Distinct(ModesOf(trips))| && Distinct(ModesOf(trips))[j] == primaryMode ==>
          Count(ModesOf(trips), Distinct(ModesOf(trips))[i]) < Count(ModesOf(trips), primaryMode)
    {
      totalDistance := SumOf(trips, DistanceOrZero);
      totalDuration := SumInts(trips, DurationOrZero);
      if trips != [] {
        var mode := MostFrequent(ModesOf(trips));
        primaryMode := mode.value;
      }
    }
  }
}
