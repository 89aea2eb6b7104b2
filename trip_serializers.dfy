/**
 * The trip serializers' logic: creating a trip with predicted mode and
 * purpose when they are missing, the data handed to the predictors, the
 * diary listing built from a trip's annotations, partial updates and the
 * completion check. The predictors themselves are parameters.
 */
module TripSerializers {
  import opened Common
  import opened TripModels
  import PurposePredictor

  datatype WaypointInput = WaypointInput(lat: real, lng: real, timestamp: Instant)

  /** A stored waypoint, attached to a trip by id. */
  datatype WaypointRow = WaypointRow(tripId: nat, lat: real, lng: real, timestamp: Instant)

  /**
   * The fields of a trip-creation request; `None` for an optional field
   * not sent. `CreateValid` says which requests the serializer accepts.
   */
  datatype TripCreateInput = TripCreateInput(
    startTime: Instant,
    originLat: real,
    originLng: real,
    originAddress: string,
    destLat: Option<real>,
    destLng: Option<real>,
    destAddress: string,
    transportMode: Option<string>,
    purpose: Option<string>,
    distanceKm: Option<real>,
    companionCount: int,
    waypoints: seq<WaypointInput>)

  /** Python truthiness of an optional text field. */
  predicate Given(s: Option<string>)
  {
    s.Some? && s.value != ""
  }

  /**
   * The checks `is_valid` makes before `create` runs: the mode is required
   * and must be one of its choices; the purpose may be left out or blank,
   * otherwise it must be one of its choices; the distance and the companion
   * count may not be negative; the addresses fit in 255 characters.
   */
  predicate CreateValid(input: TripCreateInput)
  {
    && input.transportMode.Some? && input.transportMode.value in TransportModes
    && (Given(input.purpose) ==> input.purpose.value in TripPurposes)
    && (input.distanceKm.Some? ==> input.distanceKm.value >= 0.0)
    && input.companionCount >= 0
    && |input.originAddress| <= 255 && |input.destAddress| <= 255
  }

  /** A request the serializer accepts carries a mode, so `create` never predicts one for it. */
  lemma ValidatedModeGiven(input: TripCreateInput)
    requires CreateValid(input)
    ensures Given(input.transportMode)
  {
    assert input.transportMode.value != "";
  }

  /** What the mode and purpose predictors are given. */
  datatype PredictionInput = PredictionInput(
    distanceKm: real,
    durationMinutes: real,
    timeOfDay: int,
    weekday: int,
    startTime: Instant,
    originLat: real,
    originLng: real,
    destLat: Option<real>,
    destLng: Option<real>,
    originAddress: string,
    destAddress: string,
    waypoints: seq<WaypointInput>,
    transportMode: Option<string>)

  /** A predictor returns a label and its confidence. */
  type Predictor = PredictionInput -> (string, real)

  /**
   * A given non-zero duration is kept; otherwise, with more than one
   * waypoint, the minutes from first to last waypoint; a result that is
   * still missing or zero becomes 10 minutes.
   */
  function PredictionDuration(given: Option<real>, waypoints: seq<WaypointInput>): (r: real)
    ensures r != 0.0
    ensures given.Some? && given.value != 0.0 ==> r == given.value
    ensures (given.None? || given.value == 0.0) && |waypoints| > 1 &&
            waypoints[|waypoints| - 1].timestamp != waypoints[0].timestamp ==>
      r * 60.0 == (waypoints[|waypoints| - 1].timestamp - waypoints[0].timestamp) as real
    ensures (given.None? || given.value == 0.0) && |waypoints| <= 1 ==> r == 10.0
  {
    var computed :=
      if (given.None? || given.value == 0.0) && |waypoints| > 1 then
        Some((waypoints[|waypoints| - 1].timestamp - waypoints[0].timestamp) as real / 60.0)
      else given;
    if computed.None? || computed.value == 0.0 then 10.0 else computed.value
  }

  /**
   * The predictors' input. A creation request never carries a duration
   * (it is not one of the accepted fields), so the duration always comes
   * from the waypoints or the default. A distance sent as null reads as 0
   * here, where the source passes None on; nothing observes the
   * difference, since the purpose predictor never reads the distance and
   * the mode predictor only runs for a request without a mode, which
   * validation refuses.
   */
  function PrepareForPrediction(input: TripCreateInput): (p: PredictionInput)
    ensures p.durationMinutes == PredictionDuration(None, input.waypoints)
    ensures p.timeOfDay == HourOf(input.startTime) && p.weekday == WeekdayOf(input.startTime)
    ensures p.distanceKm == input.distanceKm.GetOr(0.0) && p.waypoints == input.waypoints
  {
    PredictionInput(
      input.distanceKm.GetOr(0.0), PredictionDuration(None, input.waypoints),
      HourOf(input.startTime), WeekdayOf(input.startTime), input.startTime,
      input.originLat, input.originLng, input.destLat, input.destLng,
      input.originAddress, input.destAddress, input.waypoints, input.transportMode)
  }

  /**
   * The dictionary the purpose predictor reads: every key is present, so
   * the predictor sees exactly the mode that was sent, None included,
   * and never its "walk" default.
   */
  function AsTripData(p: PredictionInput): (d: PurposePredictor.TripData)
    ensures PurposePredictor.ModeOf(d) == p.transportMode
    ensures d.startTime == Some(p.startTime) && d.weekday == Some(p.weekday)
  {
    PurposePredictor.TripData(Some(p.startTime), Some(p.weekday), Some(p.destAddress),
      Some(p.transportMode), p.destLat, p.destLng, None)
  }

  /**
   * A trip created without a mode would get the neutral mode score for
   * every purpose. Only a caller that skips validation reaches this case:
   * both endpoints refuse such a request first (see `ValidatedModeScored`).
   */
  lemma UnsentModeScoresNeutral(input: TripCreateInput, purpose: PurposePredictor.Purpose)
    requires input.transportMode.None?
    ensures PurposePredictor.TripModeScore(purpose, AsTripData(PrepareForPrediction(input))) == 1.0
  {
  }

  /** For a request the serializer accepts, the purpose predictor scores the mode that was sent. */
  lemma ValidatedModeScored(input: TripCreateInput, purpose: PurposePredictor.Purpose)
    requires CreateValid(input)
    ensures PurposePredictor.TripModeScore(purpose, AsTripData(PrepareForPrediction(input))) ==
            PurposePredictor.ModeScore(purpose, input.transportMode.value)
  {
  }

  /**
   * `trip` is the trip built from `input` under `id`, `userId` and
   * `status`: the request's fields copied, no end time or duration yet, a
   * missing mode or purpose predicted with its confidence, a supplied one
   * kept with the default confidence 0, and the flags at their defaults.
   */
  ghost predicate CreatedFrom(trip: TripRecord, input: TripCreateInput, id: nat, userId: nat, status: TripStatus,
                              predictMode: Predictor, predictPurpose: Predictor)
  {
    && trip.id == id && trip.userId == userId && trip.status == status
    && trip.startTime == input.startTime && trip.endTime.None? && trip.durationMinutes.None?
    && trip.originLat == input.originLat && trip.originLng == input.originLng
    && trip.originAddress == input.originAddress
    && trip.destLat == input.destLat && trip.destLng == input.destLng && trip.destAddress == input.destAddress
    && trip.distanceKm == input.distanceKm && trip.companionCount == input.companionCount
    && (Given(input.transportMode) ==> trip.transportMode == input.transportMode.value && trip.modeConfidence == 0.0)
    && (!Given(input.transportMode) ==>
          (trip.transportMode, trip.modeConfidence) == predictMode(PrepareForPrediction(input)))
    && (Given(input.purpose) ==> trip.purpose == input.purpose.value && trip.purposeConfidence == 0.0)
    && (!Given(input.purpose) ==>
          (trip.purpose, trip.purposeConfidence) == predictPurpose(PrepareForPrediction(input)))
    && !trip.isValidated && !trip.needsReview && !trip.isPrivate && trip.shareForResearch.None?
  }

  /** The waypoint rows of a new trip `id`: one per supplied waypoint, in order. */
  function NewWaypoints(id: nat, wps: seq<WaypointInput>): (rows: seq<WaypointRow>)
    ensures |rows| == |wps|
    ensures forall k :: 0 <= k < |rows| ==> rows[k] == WaypointRow(id, wps[k].lat, wps[k].lng, wps[k].timestamp)
  {
    seq(|wps|, k requires 0 <= k < |wps| => WaypointRow(id, wps[k].lat, wps[k].lng, wps[k].timestamp))
  }

  /**
   * Builds the new trip and one waypoint row per supplied waypoint. A
   * missing mode or purpose is predicted, with its confidence; a supplied
   * one is kept and its confidence stays at the default 0. (Both endpoints
   * call this only for a request that passes `CreateValid`, which always
   * carries a mode, so only the purpose is ever predicted there.)
   */
  method Create(input: TripCreateInput, id: nat, userId: nat, status: TripStatus,
                predictMode: Predictor, predictPurpose: Predictor)
    returns (trip: TripRecord, rows: seq<WaypointRow>)
    ensures CreatedFrom(trip, input, id, userId, status, predictMode, predictPurpose)
    ensures rows == NewWaypoints(id, input.waypoints)
  {
    var mode := if input.transportMode.Some? then input.transportMode.value else "";
    var modeConfidence := 0.0;
    var purpose := if input.purpose.Some? then input.purpose.value else "";
    var purposeConfidence := 0.0;
    if !Given(input.transportMode) || !Given(input.purpose) {
      var tripData := PrepareForPrediction(input);
      if !Given(input.transportMode) {
        mode, modeConfidence := predictMode(tripData).0, predictMode(tripData).1;
      }
      if !Given(input.purpose) {
        purpose, purposeConfidence := predictPurpose(tripData).0, predictPurpose(tripData).1;
      }
    }
    trip := TripRecord(
      id, userId, input.startTime, None, None,
      input.originLat, input.originLng, input.originAddress,
      input.destLat, input.destLng, input.destAddress,
      mode, purpose, input.distanceKm, modeConfidence, purposeConfidence,
      input.companionCount, status, false, false, false, None);
    rows := [];
    for k := 0 to |input.waypoints|
      invariant |rows| == k
      invariant forall j :: 0 <= j < k ==>
        rows[j] == WaypointRow(id, input.waypoints[j].lat, input.waypoints[j].lng, input.waypoints[j].timestamp)
    {
      var wp := input.waypoints[k];
      rows := rows + [WaypointRow(id, wp.lat, wp.lng, wp.timestamp)];
    }
    assert rows == NewWaypoints(id, input.waypoints);
  }

  // ---------------------------------------------------------------------
  // Diaries
  // ---------------------------------------------------------------------

  /** One element of a tag list: a dictionary (its `url` key absent is None) or anything else. */
  datatype TagEntry = TagDict(url: Option<string>, caption: Option<string>) | TagOther

  /** An annotation's tags: a list, a single dictionary, or another JSON value. */
  datatype Tags = TagList(items: seq<TagEntry>) | TagObject(url: Option<string>, caption: Option<string>) | TagScalar

  /** A trip annotation; `photo` is the URL of an uploaded file, if any. */
  datatype Annotation = Annotation(id: nat, tripId: nat, note: string, photo: Option<string>, tags: Tags, createdAt: Instant)

  /** A photo of a diary entry; an uploaded file's photo has no caption key (None). */
  datatype Photo = Photo(url: string, caption: Option<string>)

  datatype DiaryEntry = DiaryEntry(id: nat, note: string, photos: seq<Photo>, createdAt: Instant)

  /** The photos named by the dictionaries of a tag list that have a `url` key, in order. */
  function TagPhotos(items: seq<TagEntry>): (r: seq<Photo>)
    ensures |r| <= |items|
  {
    if items == [] then []
    else
      var last := items[|items| - 1];
      TagPhotos(items[..|items| - 1]) +
        (if last.TagDict? && last.url.Some? then [Photo(last.url.value, last.caption)] else [])
  }

  /**
   * The uploaded file first, then the photos named in the tags. A tag
   * without a `caption` key and one whose caption is null both give a
   * photo with caption None: the serializer reads the key with a default
   * of null, so the two are the same value.
   */
  function PhotosOf(ann: Annotation): (r: seq<Photo>)
    ensures ann.photo.Some? ==> r != [] && r[0] == Photo(ann.photo.value, None)
  {
    (if ann.photo.Some? then [Photo(ann.photo.value, None)] else []) +
    match ann.tags
    case TagList(items) => TagPhotos(items)
    case TagObject(url, caption) => if url.Some? then [Photo(url.value, caption)] else []
    case TagScalar => []
  }

  function DiaryOf(ann: Annotation): (e: DiaryEntry)
    ensures e.id == ann.id && e.note == ann.note && e.createdAt == ann.createdAt
  {
    DiaryEntry(ann.id, ann.note, PhotosOf(ann), ann.createdAt)
  }

  function CreatedAt(ann: Annotation): int
  {
    ann.createdAt
  }

  /** Annotations newest first; annotations created at the same instant keep their order. */
  function NewestFirst(anns: seq<Annotation>): (r: seq<Annotation>)
    ensures |r| == |anns| && multiset(r) == multiset(anns)
    ensures forall i, j :: 0 <= i < j < |r| ==> r[i].createdAt >= r[j].createdAt
  {
    var r := SortDesc(anns, CreatedAt);
    assert SortedDesc(r, CreatedAt);
    r
  }

  /** Collects the photos of one annotation, as the listing does. */
  method CollectPhotos(ann: Annotation) returns (photos: seq<Photo>)
    ensures photos == PhotosOf(ann)
  {
    photos := [];
    if ann.photo.Some? {
      photos := photos + [Photo(ann.photo.value, None)];
    }
    ghost var before := photos;
    match ann.tags {
      case TagList(items) =>
        for k := 0 to |items|
          invariant photos == before + TagPhotos(items[..k])
        {
          assert items[..k + 1][..k] == items[..k];
          var t := items[k];
          if t.TagDict? && t.url.Some? {
            photos := photos + [Photo(t.url.value, t.caption)];
          }
        }
        assert items[..|items|] == items;
      case TagObject(url, caption) =>
        if url.Some? {
          photos := photos + [Photo(url.value, caption)];
        }
      case TagScalar =>
    }
  }

  /** The diary of a trip: one entry per annotation, newest first. */
  method GetDiaries(anns: seq<Annotation>) returns (entries: seq<DiaryEntry>)
    ensures |entries| == |anns|
    ensures forall k :: 0 <= k < |entries| ==> entries[k] == DiaryOf(NewestFirst(anns)[k])
  {
    var ordered := NewestFirst(anns);
    entries := [];
    for k := 0 to |ordered|
      invariant |entries| == k
      invariant forall j :: 0 <= j < k ==> entries[j] == DiaryOf(ordered[j])
    {
      var ann := ordered[k];
      var photos := CollectPhotos(ann);
      entries := entries + [DiaryEntry(ann.id, ann.note, photos, ann.createdAt)];
    }
  }

  /** The listing is newest first and loses or invents no annotation. */
  lemma DiariesNewestFirst(anns: seq<Annotation>, entries: seq<DiaryEntry>)
    requires |entries| == |anns|
    requires forall k :: 0 <= k < |entries| ==> entries[k] == DiaryOf(NewestFirst(anns)[k])
    ensures forall i, j :: 0 <= i < j < |entries| ==> entries[i].createdAt >= entries[j].createdAt
    ensures forall a :: a in anns ==> DiaryOf(a) in entries
  {
    var ordered := NewestFirst(anns);
    forall a | a in anns
      ensures DiaryOf(a) in entries
    {
      assert a in multiset(anns);
      assert a in multiset(ordered);
      var k :| 0 <= k < |ordered| && ordered[k] == a;
      assert entries[k] == DiaryOf(a);
    }
  }

  // ---------------------------------------------------------------------
  // Updates and completion
  // ---------------------------------------------------------------------

  /** Fields a user may update; `None` for a field not sent. */
  datatype TripUpdate = TripUpdate(
    transportMode: Option<string>,
    purpose: Option<string>,
    destLat: Option<Option<real>>,
    destLng: Option<Option<real>>,
    destAddress: Option<string>,
    companionCount: Option<int>,
    isPrivate: Option<bool>,
    shareForResearch: Option<Option<bool>>)

  /**
   * A user's update marks the trip validated and no longer in need of
   * review, and overwrites exactly the fields that were sent.
   */
  function UpdateTrip(t: TripRecord, u: TripUpdate): (r: TripRecord)
    ensures r.isValidated && !r.needsReview
    ensures u.transportMode.Some? ==> r.transportMode == u.transportMode.value
    ensures u.transportMode.None? ==> r.transportMode == t.transportMode
    ensures u.purpose.Some? ==> r.purpose == u.purpose.value
    ensures u.purpose.None? ==> r.purpose == t.purpose
    ensures u.destLat.Some? ==> r.destLat == u.destLat.value
    ensures u.destLat.None? ==> r.destLat == t.destLat
    ensures u.destLng.Some? ==> r.destLng == u.destLng.value
    ensures u.destLng.None? ==> r.destLng == t.destLng
    ensures u.destAddress.Some? ==> r.destAddress == u.destAddress.value
    ensures u.destAddress.None? ==> r.destAddress == t.destAddress
    ensures u.companionCount.Some? ==> r.companionCount == u.companionCount.value
    ensures u.companionCount.None? ==> r.companionCount == t.companionCount
    ensures u.isPrivate.Some? ==> r.isPrivate == u.isPrivate.value
    ensures u.isPrivate.None? ==> r.isPrivate == t.isPrivate
    ensures u.shareForResearch.Some? ==> r.shareForResearch == u.shareForResearch.value
    ensures u.shareForResearch.None? ==> r.shareForResearch == t.shareForResearch
    ensures u == TripUpdate(None, None, None, None, None, None, None, None) ==>
      r == t.(isValidated := true, needsReview := false)
    ensures r == t.(transportMode := r.transportMode, purpose := r.purpose, destLat := r.destLat,
                    destLng := r.destLng, destAddress := r.destAddress, companionCount := r.companionCount,
                    isPrivate := r.isPrivate, shareForResearch := r.shareForResearch,
                    isValidated := true, needsReview := false)
  {
    t.(isValidated := true, needsReview := false,
       transportMode := u.transportMode.GetOr(t.transportMode),
       purpose := u.purpose.GetOr(t.purpose),
       destLat := u.destLat.GetOr(t.destLat),
       destLng := u.destLng.GetOr(t.destLng),
       destAddress := u.destAddress.GetOr(t.destAddress),
       companionCount := u.companionCount.GetOr(t.companionCount),
       isPrivate := u.isPrivate.GetOr(t.isPrivate),
       shareForResearch := u.shareForResearch.GetOr(t.shareForResearch))
  }

  /** An end time more than 24 hours before `now` is refused; a missing one is accepted. */
  function CompletionValid(endTime: Option<Instant>, now: Instant): (ok: bool)
    ensures endTime.None? ==> ok
    ensures endTime.Some? ==> (ok <==> endTime.value >= now - 24 * 3600)
  {
    !(endTime.Some? && endTime.value < now - 86400)
  }
}
