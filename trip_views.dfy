/**
 * The trip endpoints over an in-memory table of trips, waypoints and
 * annotations: starting and completing a trip, the statistics summary and
 * the two diary endpoints. Request parsing is modelled as far as the
 * endpoints inspect it; authentication has already named the user.
 */
module TripViews {
  import opened Common
  import opened TripModels
  import opened TripSerializers

  /** No user has two active trips at once: what the start endpoint checks for, though the list endpoint does not. */
  predicate AtMostOneActivePerUser(trips: seq<TripRecord>)
  {
    forall i, j :: 0 <= i < j < |trips| && trips[i].userId == trips[j].userId ==>
      !(IsActive(trips[i]) && IsActive(trips[j]))
  }

  predicate ActiveOf(t: TripRecord, userId: nat)
  {
    t.userId == userId && IsActive(t)
  }

  /**
   * The user's active trip as `.first()` reads it under the table's
   * ordering by start time, latest first: an active trip of the user that
   * started no earlier than any other (the first in table order among
   * equal start times).
   */
  function ActiveTripOf(trips: seq<TripRecord>, userId: nat): (r: Option<nat>)
    ensures r.Some? ==> r.value < |trips| && ActiveOf(trips[r.value], userId)
    ensures r.Some? ==> forall k :: 0 <= k < |trips| && ActiveOf(trips[k], userId) ==>
      trips[k].startTime <= trips[r.value].startTime
    ensures r.None? ==> forall k :: 0 <= k < |trips| ==> !ActiveOf(trips[k], userId)
  {
    if trips == [] then None
    else
      var rest := ActiveTripOf(trips[1..], userId);
      assert forall k :: 1 <= k < |trips| ==> trips[k] == trips[1..][k - 1];
      if ActiveOf(trips[0], userId) && (rest.None? || trips[rest.value + 1].startTime <= trips[0].startTime) then Some(0)
      else if rest.Some? then Some(rest.value + 1)
      else None
  }

  /** The position of trip `id` of user `userId`, if it exists (and is active, when asked). */
  function FindTrip(trips: seq<TripRecord>, id: nat, userId: nat, activeOnly: bool): (r: Option<nat>)
    ensures r.Some? ==> r.value < |trips| && trips[r.value].id == id && trips[r.value].userId == userId &&
                        (activeOnly ==> IsActive(trips[r.value]))
    ensures r.None? ==> forall k :: 0 <= k < |trips| ==>
      !(trips[k].id == id && trips[k].userId == userId && (activeOnly ==> IsActive(trips[k])))
  {
    if trips == [] then None
    else if trips[0].id == id && trips[0].userId == userId && (activeOnly ==> IsActive(trips[0])) then Some(0)
    else
      var rest := FindTrip(trips[1..], id, userId, activeOnly);
      if rest.Some? then Some(rest.value + 1) else None
  }

  // ---------------------------------------------------------------------
  // Completion request
  // ---------------------------------------------------------------------

  /** One element of the `path` list: an object with its coordinate keys, or anything else. */
  datatype PathPoint =
    | PointObject(lat: Option<JVal>, latitude: Option<JVal>, lon: Option<JVal>, lng: Option<JVal>, longitude: Option<JVal>)
    | NotAnObject

  /**
   * The `path` field: absent or falsy, a list, or a string whose JSON
   * decoding gives a list (None when it does not decode to a list).
   */
  datatype PathInput = NoPath | PathArray(points: seq<PathPoint>) | PathText(parsed: Option<seq<PathPoint>>)

  /**
   * The completion fields as the serializer's fields read them (`None`
   * for a field not sent; texts after their surrounding white space is
   * stripped), plus the raw `distance_km` and `path`.
   */
  datatype CompletionRequest = CompletionRequest(
    endTime: Option<Instant>,
    destLat: Option<real>,
    destLng: Option<real>,
    destAddress: Option<string>,
    companionCount: int,
    finalMode: Option<string>,
    finalPurpose: Option<string>,
    distance: Option<JVal>,
    path: PathInput)

  function PathPoints(path: PathInput): seq<PathPoint>
  {
    match path
    case NoPath => []
    case PathArray(points) => points
    case PathText(parsed) => parsed.GetOr([])
  }

  /** What one path element does: add a waypoint, be skipped, or raise and end the loop. */
  datatype PointStep = Take(lat: real, lng: real) | Skip | Halt

  /**
   * `lat` or else `latitude`, and `lon`, `lng` or else `longitude`, by
   * truthiness; an element lacking either is skipped; a non-object or a
   * value that is not a number raises.
   */
  function PointStepOf(pt: PathPoint): (r: PointStep)
    ensures pt.NotAnObject? ==> r == Halt
    ensures pt.PointObject? && (Or(pt.lat, pt.latitude).None? || Or(Or(pt.lon, pt.lng), pt.longitude).None?) ==> r == Skip
    ensures r.Take? ==> (pt.PointObject? &&
      Some(r.lat) == AsFloat(Or(pt.lat, pt.latitude)) && Some(r.lng) == AsFloat(Or(Or(pt.lon, pt.lng), pt.longitude)))
  {
    match pt
    case NotAnObject => Halt
    case PointObject(lat0, latitude, lon0, lng, longitude) =>
      var lat := Or(lat0, latitude);
      var lon := Or(Or(lon0, lng), longitude);
      if lat.None? || lon.None? then Skip
      else
        var la := AsFloat(lat);
        var lo := AsFloat(lon);
        if la.None? || lo.None? then Halt else Take(la.value, lo.value)
  }

  /** The waypoints created from a path, all stamped `now`, up to the first element that raises. */
  function PathRows(points: seq<PathPoint>, tripId: nat, now: Instant): (r: seq<WaypointRow>)
    ensures |r| <= |points|
    ensures forall k :: 0 <= k < |r| ==> r[k].tripId == tripId && r[k].timestamp == now
  {
    if points == [] then []
    else
      match PointStepOf(points[0])
      case Halt => []
      case Skip => PathRows(points[1..], tripId, now)
      case Take(lat, lng) => [WaypointRow(tripId, lat, lng, now)] + PathRows(points[1..], tripId, now)
  }

  /** A path whose every element has usable coordinates gives one waypoint per element, in order. */
  lemma {:induction false} PathRowsAllTaken(points: seq<PathPoint>, tripId: nat, now: Instant)
    requires forall k :: 0 <= k < |points| ==> PointStepOf(points[k]).Take?
    ensures |PathRows(points, tripId, now)| == |points|
    ensures forall k :: 0 <= k < |points| ==>
      PathRows(points, tripId, now)[k] == WaypointRow(tripId, PointStepOf(points[k]).lat, PointStepOf(points[k]).lng, now)
  {
    if points != [] {
      PathRowsAllTaken(points[1..], tripId, now);
      var rest := PathRows(points[1..], tripId, now);
      assert PathRows(points, tripId, now) == [WaypointRow(tripId, PointStepOf(points[0]).lat, PointStepOf(points[0]).lng, now)] + rest;
      forall k | 1 <= k < |points|
        ensures PathRows(points, tripId, now)[k] == WaypointRow(tripId, PointStepOf(points[k]).lat, PointStepOf(points[k]).lng, now)
      {
        assert points[1..][k - 1] == points[k];
      }
    }
  }

  /** The completion loop over the path. */
  method CreatePathWaypoints(points: seq<PathPoint>, tripId: nat, now: Instant) returns (rows: seq<WaypointRow>)
    ensures rows == PathRows(points, tripId, now)
  {
    rows := [];
    var i := 0;
    var halted := false;
    while i < |points| && !halted
      invariant 0 <= i <= |points|
      invariant !halted ==> PathRows(points, tripId, now) == rows + PathRows(points[i..], tripId, now)
      invariant halted ==> PathRows(points, tripId, now) == rows
      decreases |points| - i, if halted then 0 else 1
    {
      assert points[i..][1..] == points[i + 1..];
      match PointStepOf(points[i]) {
        case Halt =>
          halted := true;
        case Skip =>
          i := i + 1;
        case Take(lat, lng) =>
          rows := rows + [WaypointRow(tripId, lat, lng, now)];
          i := i + 1;
      }
    }
  }

  /** End time (or `now`), destination and companions from the request; nothing else changes. */
  function WithCompletionFields(t: TripRecord, req: CompletionRequest, now: Instant): (r: TripRecord)
    ensures r.endTime == Some(req.endTime.GetOr(now))
    ensures r.destLat == req.destLat && r.destLng == req.destLng
    ensures r.destAddress == req.destAddress.GetOr("") && r.companionCount == req.companionCount
    ensures r == t.(endTime := r.endTime, destLat := r.destLat, destLng := r.destLng,
                    destAddress := r.destAddress, companionCount := r.companionCount)
  {
    t.(endTime := Some(req.endTime.GetOr(now)), destLat := req.destLat, destLng := req.destLng,
       destAddress := req.destAddress.GetOr(""), companionCount := req.companionCount)
  }

  /**
   * The checks `is_valid` makes on a completion request: both destination
   * coordinates are required, the optional texts may not be blank, and an
   * end time may not be more than 24 hours old.
   */
  predicate CompletionAccepted(req: CompletionRequest, now: Instant)
  {
    && req.destLat.Some? && req.destLng.Some?
    && req.destAddress != Some("") && req.finalMode != Some("") && req.finalPurpose != Some("")
    && CompletionValid(req.endTime, now)
  }

  /** The distance is overwritten only by a value that parses as a number. */
  function WithParsedDistance(t: TripRecord, distance: Option<JVal>): (r: TripRecord)
    ensures AsFloat(distance).Some? ==> r == t.(distanceKm := AsFloat(distance))
    ensures AsFloat(distance).None? ==> r == t
  {
    var parsed := AsFloat(distance);
    if parsed.Some? then t.(distanceKm := parsed) else t
  }

  /** Mode and purpose are overridden only by non-empty values. */
  function WithFinalLabels(t: TripRecord, finalMode: Option<string>, finalPurpose: Option<string>): (r: TripRecord)
    ensures r.transportMode == (if Given(finalMode) then finalMode.value else t.transportMode)
    ensures r.purpose == (if Given(finalPurpose) then finalPurpose.value else t.purpose)
    ensures r == t.(transportMode := r.transportMode, purpose := r.purpose)
  {
    var moded := if Given(finalMode) then t.(transportMode := finalMode.value) else t;
    if Given(finalPurpose) then moded.(purpose := finalPurpose.value) else moded
  }

  /**
   * The trip after completion: request fields, distance and labels as the
   * three steps above say, duration recomputed from the new end time and
   * status completed.
   */
  function ApplyCompletion(t: TripRecord, req: CompletionRequest, now: Instant): (r: TripRecord)
    ensures r.status == Completed && !IsActive(r)
    ensures r.id == t.id && r.userId == t.userId && r.startTime == t.startTime
    ensures r.endTime == Some(req.endTime.GetOr(now))
    ensures AsFloat(req.distance).None? ==> r.distanceKm == t.distanceKm
    ensures r.durationMinutes.Some?
  {
    var labelled := WithFinalLabels(WithParsedDistance(WithCompletionFields(t, req, now), req.distance),
                                    req.finalMode, req.finalPurpose);
    CalculateDuration(labelled).(status := Completed)
  }

  // ---------------------------------------------------------------------
  // Statistics
  // ---------------------------------------------------------------------

  function StartKey(t: TripRecord): int
  {
    t.startTime
  }

  function CompletedOf(trips: seq<TripRecord>, userId: nat): (r: seq<TripRecord>)
    ensures forall t :: t in r <==> t in trips && t.userId == userId && t.status == Completed
  {
    if trips == [] then []
    else
      var last := trips[|trips| - 1];
      CompletedOf(trips[..|trips| - 1], userId) + (if last.userId == userId && last.status == Completed then [last] else [])
  }

  /** A user's completed trips, latest start first. */
  function UserCompletedTrips(trips: seq<TripRecord>, userId: nat): (r: seq<TripRecord>)
    ensures multiset(r) == multiset(CompletedOf(trips, userId))
    ensures forall i, j :: 0 <= i < j < |r| ==> r[i].startTime >= r[j].startTime
  {
    var r := SortDesc(CompletedOf(trips, userId), StartKey);
    assert SortedDesc(r, StartKey);
    r
  }

  /** The carbon a trip saves against driving, as corrected: a missing distance counts as 0. */
  function Saved(t: TripRecord): (r: real)
    ensures t.distanceKm.GetOr(0.0) >= 0.0 ==> r >= 0.0
  {
    if t.transportMode == "walk" || t.transportMode == "cycle" then DistanceOrZero(t) * 0.21
    else if t.transportMode == "bus" || t.transportMode == "metro" then DistanceOrZero(t) * (0.21 - 0.05)
    else 0.0
  }

  /**
   * The carbon saved as the endpoint computes it: None where multiplying
   * a missing distance raises, which fails the whole request.
   */
  function SavedAsWritten(t: TripRecord): (r: Option<real>)
  {
    if t.transportMode == "walk" || t.transportMode == "cycle" then
      if t.distanceKm.None? then None else Some(t.distanceKm.value * 0.21)
    else if t.transportMode == "bus" || t.transportMode == "metro" then
      if t.distanceKm.None? then None else Some(t.distanceKm.value * (0.21 - 0.05))
    else Some(0.0)
  }

  function CarbonSavedAsWritten(ts: seq<TripRecord>): (r: Option<real>)
  {
    if ts == [] then Some(0.0)
    else
      var prev := CarbonSavedAsWritten(ts[..|ts| - 1]);
      var last := SavedAsWritten(ts[|ts| - 1]);
      if prev.None? || last.None? then None else Some(prev.value + last.value)
  }

  /** A completed walk without a recorded distance makes the statistics request fail. */
  lemma CarbonSavedCrashes(t: TripRecord)
    requires t.transportMode == "walk" && t.distanceKm.None?
    ensures CarbonSavedAsWritten([t]) == None
    ensures SumOf([t], Saved) == 0.0
  {
    assert [t][..0] == [];
  }

  /** Where every trip has a distance, the correction changes nothing. */
  lemma {:induction false} CarbonSavedAgrees(ts: seq<TripRecord>)
    requires forall k :: 0 <= k < |ts| ==> ts[k].distanceKm.Some?
    ensures CarbonSavedAsWritten(ts) == Some(SumOf(ts, Saved))
  {
    if ts != [] {
      CarbonSavedAgrees(ts[..|ts| - 1]);
    }
  }

  /**
   * 100 without distance; otherwise `100 - 500 * carbon per km`, truncated
   * and kept within 0..100.
   */
  function EcoScore(totalCarbon: real, totalDistance: real): (r: int)
    ensures 0 <= r <= 100
    ensures totalDistance <= 0.0 ==> r == 100
    ensures totalDistance > 0.0 && totalCarbon <= 0.0 ==> r == 100
    ensures totalDistance > 0.0 && totalCarbon >= totalDistance * 0.2 ==> r == 0
  {
    if totalDistance > 0.0 then
      assert totalCarbon >= totalDistance * 0.2 ==> totalCarbon / totalDistance >= 0.2;
      assert totalCarbon <= 0.0 ==> totalCarbon / totalDistance <= 0.0;
      var raw := Trunc(100.0 - totalCarbon / totalDistance * 500.0);
      if raw < 0 then 0 else if raw > 100 then 100 else raw
    else 100
  }

  /** A lower carbon total over the same distance never lowers the score. */
  lemma EcoScoreMonotone(c1: real, c2: real, d: real)
    requires c1 <= c2
    ensures EcoScore(c2, d) <= EcoScore(c1, d)
  {
    if d > 0.0 {
      assert c1 / d * 500.0 <= c2 / d * 500.0;
      TruncMonotone(100.0 - c2 / d * 500.0, 100.0 - c1 / d * 500.0);
    }
  }

  lemma TruncMonotone(x: real, y: real)
    requires x <= y
    ensures Trunc(x) <= Trunc(y)
  {
  }

  function Prefix50(s: string): (r: string)
    ensures |r| <= 50 && |r| <= |s| && r == s[..|r|]
  {
    if |s| <= 50 then s else s[..50]
  }

  /** The non-empty destination addresses, cut to 50 characters, in trip order. */
  function DestinationKeys(ts: seq<TripRecord>): (r: seq<string>)
    ensures forall k :: k in r ==> |k| <= 50 && k != ""
  {
    if ts == [] then []
    else
      var last := ts[|ts| - 1];
      DestinationKeys(ts[..|ts| - 1]) + (if last.destAddress != "" then [Prefix50(last.destAddress)] else [])
  }

  function PurposesOf(ts: seq<TripRecord>): (r: seq<string>)
    ensures |r| == |ts| && forall k :: 0 <= k < |ts| ==> r[k] == ts[k].purpose
  {
    seq(|ts|, k requires 0 <= k < |ts| => ts[k].purpose)
  }

  function StartedSince(ts: seq<TripRecord>, since: Instant): (r: nat)
    ensures r <= |ts|
  {
    if ts == [] then 0
    else StartedSince(ts[..|ts| - 1], since) + (if ts[|ts| - 1].startTime >= since then 1 else 0)
  }

  datatype TripStats = TripStats(
    totalTrips: nat,
    totalDistance: real,
    totalDuration: int,
    carbonSaved: real,
    mostUsedMode: string,
    favouriteDestination: string,
    tripsThisWeek: nat,
    tripsThisMonth: nat,
    modeBreakdown: map<string, nat>,
    purposeBreakdown: map<string, nat>,
    totalCarbonFootprint: real,
    ecoScore: int)

  /** The carbon loop: footprints and savings summed over the trips. */
  method CarbonTotals(ts: seq<TripRecord>) returns (totalCarbon: real, carbonSaved: real)
    ensures totalCarbon == SumOf(ts, CarbonFootprint)
    ensures carbonSaved == SumOf(ts, Saved)
  {
    totalCarbon, carbonSaved := 0.0, 0.0;
    for k := 0 to |ts|
      invariant totalCarbon == SumOf(ts[..k], CarbonFootprint)
      invariant carbonSaved == SumOf(ts[..k], Saved)
    {
      assert ts[..k + 1][..k] == ts[..k];
      totalCarbon := totalCarbon + CarbonFootprint(ts[k]);
      carbonSaved := carbonSaved + Saved(ts[k]);
    }
    assert ts[..|ts|] == ts;
  }

  /**
   * The most frequent non-empty destination, cut to 50 characters, the
   * first counted on ties; "N/A" when there is none.
   */
  method FavouriteDestination(ts: seq<TripRecord>) returns (fav: string)
    ensures DestinationKeys(ts) == [] ==> fav == "N/A"
    ensures DestinationKeys(ts) != [] ==> FirstMostFrequent(DestinationKeys(ts), fav) && |fav| <= 50
  {
    var keys: seq<string> := [];
    for k := 0 to |ts|
      invariant keys == DestinationKeys(ts[..k])
    {
      assert ts[..k + 1][..k] == ts[..k];
      if ts[k].destAddress != "" {
        keys := keys + [Prefix50(ts[k].destAddress)];
      }
    }
    assert ts[..|ts|] == ts;
    var best := MostFrequent(keys);
    fav := best.GetOr("N/A");
  }

  /** The eco score of a user's completed trips is within 0..100. */
  lemma StatsEcoScoreRange(ts: seq<TripRecord>)
    ensures 0 <= EcoScore(SumOf(ts, CarbonFootprint), SumOf(ts, DistanceOrZero)) <= 100
  {
  }

  // ---------------------------------------------------------------------
  // Diaries
  // ---------------------------------------------------------------------

  /** An element of the `photos` list of the URL endpoint. */
  datatype PhotoInput = PhotoUrl(text: string) | PhotoObject(url: Option<string>, caption: Option<string>) | PhotoOther

  /** The photos the URL endpoint stores: every plain URL, and every object with a non-empty `url`. */
  function AcceptedPhotos(photos: seq<PhotoInput>): (r: seq<Photo>)
    ensures |r| <= |photos|
  {
    if photos == [] then []
    else AcceptedPhotos(photos[..|photos| - 1]) + Accepted(photos[|photos| - 1])
  }

  /** What one element contributes: a plain URL, or an object's non-empty `url` with its caption. */
  function Accepted(p: PhotoInput): (r: seq<Photo>)
    ensures |r| <= 1
  {
    match p
    case PhotoUrl(u) => [Photo(u, None)]
    case PhotoObject(u, c) => if u.Some? && u.value != "" then [Photo(u.value, c)] else []
    case PhotoOther => []
  }

  lemma AcceptedStep(photos: seq<PhotoInput>, k: nat)
    requires k < |photos|
    ensures AcceptedPhotos(photos[..k + 1]) == AcceptedPhotos(photos[..k]) + Accepted(photos[k])
  {
    assert photos[..k + 1][..k] == photos[..k];
  }

  /** The annotation stored for one accepted photo: the note, and the photo's URL and caption as a tag object. */
  function UrlAnnotation(id: nat, tripId: nat, note: string, p: Photo, now: Instant): Annotation
  {
    Annotation(id, tripId, note, None, TagObject(Some(p.url), p.caption), now)
  }

  /** Each stored URL photo reads back from the diary listing with the same URL and caption. */
  lemma UrlPhotoRoundTrip(id: nat, tripId: nat, note: string, p: Photo, now: Instant)
    ensures DiaryOf(UrlAnnotation(id, tripId, note, p, now)) == DiaryEntry(id, note, [p], now)
  {
  }

  /** The annotation stored for the `k`-th uploaded photo: the note, the file and its caption in a tag list. */
  function UploadAnnotation(id: nat, tripId: nat, note: string, url: string, caption: string, now: Instant): Annotation
  {
    Annotation(id, tripId, note, Some(url), TagList([TagDict(None, Some(caption))]), now)
  }

  /** The listing shows an uploaded photo by its URL alone: the caption stored with it is not read back. */
  lemma UploadCaptionNotListed(id: nat, tripId: nat, note: string, url: string, caption: string, now: Instant)
    ensures DiaryOf(UploadAnnotation(id, tripId, note, url, caption, now)).photos == [Photo(url, None)]
  {
    assert TagPhotos([TagDict(None, Some(caption))]) == [] by {
      assert [TagDict(None, Some(caption))][..0] == [];
    }
  }

  /**
   * What `json.loads` made of the multipart `captions` field. An absent,
   * empty or unparseable field reads as an empty list.
   */
  datatype CaptionsJson = CaptionList(items: seq<string>) | CaptionText(text: string) | CaptionObject(size: nat) | CaptionScalar

  /**
   * Whether the first uploaded photo's caption lookup raises: `len` of a
   * number, boolean or null, or an integer index into a non-empty object.
   */
  predicate CaptionsRaise(c: CaptionsJson)
  {
    c.CaptionScalar? || (c.CaptionObject? && c.size > 0)
  }

  /** The captions the photos get by index: a list's items, a string's characters one by one. */
  function CaptionStrings(c: CaptionsJson): (r: seq<string>)
    requires !CaptionsRaise(c)
    ensures c.CaptionList? ==> r == c.items
    ensures c.CaptionText? ==> |r| == |c.text| && forall k :: 0 <= k < |r| ==> r[k] == [c.text[k]]
    ensures c.CaptionObject? ==> r == []
  {
    match c
    case CaptionList(items) => items
    case CaptionText(text) => seq(|text|, k requires 0 <= k < |text| => [text[k]])
    case CaptionObject(_) => []
  }

  /** The captions by index, none for captions whose lookup raises (no photo reaches them then). */
  function CaptionTexts(c: CaptionsJson): (r: seq<string>)
    ensures !CaptionsRaise(c) ==> r == CaptionStrings(c)
  {
    if CaptionsRaise(c) then [] else CaptionStrings(c)
  }

  function CaptionAt(captions: seq<string>, k: nat): string
  {
    if k < |captions| then captions[k] else ""
  }

  /** The note-only annotation, stored only for a non-empty note. */
  function NoteRow(id: nat, tripId: nat, note: string, now: Instant): (r: seq<Annotation>)
    ensures |r| == (if note != "" then 1 else 0)
    ensures note != "" ==> r[0].id == id && r[0].tripId == tripId && r[0].note == note && r[0].photo.None?
  {
    if note != "" then [Annotation(id, tripId, note, None, TagList([]), now)] else []
  }

  /** The annotations for uploaded files, numbered from `firstId`, each with its caption or "". */
  function UploadAnnotations(firstId: nat, tripId: nat, note: string, urls: seq<string>, captions: seq<string>,
                             now: Instant): (r: seq<Annotation>)
    ensures |r| == |urls|
    ensures forall k :: 0 <= k < |urls| ==> r[k] == UploadAnnotation(firstId + k, tripId, note, urls[k], CaptionAt(captions, k), now)
  {
    if urls == [] then []
    else
      var n := |urls| - 1;
      UploadAnnotations(firstId, tripId, note, urls[..n], captions, now) +
        [UploadAnnotation(firstId + n, tripId, note, urls[n], CaptionAt(captions, n), now)]
  }

  /** The annotations for accepted URL photos, numbered from `firstId`. */
  function UrlAnnotations(firstId: nat, tripId: nat, note: string, accepted: seq<Photo>, now: Instant): (r: seq<Annotation>)
  {
    seq(|accepted|, k requires 0 <= k < |accepted| => UrlAnnotation(firstId + k, tripId, note, accepted[k], now))
  }

  /** Creates one annotation per uploaded file, numbering them from `firstId`. */
  method BuildUploadRows(firstId: nat, tripId: nat, note: string, urls: seq<string>, captions: seq<string>,
                         now: Instant) returns (rows: seq<Annotation>)
    ensures rows == UploadAnnotations(firstId, tripId, note, urls, captions, now)
    ensures IdsBelow(rows, firstId + |urls|)
  {
    rows := [];
    for k := 0 to |urls|
      invariant rows == UploadAnnotations(firstId, tripId, note, urls[..k], captions, now)
    {
      assert urls[..k + 1][..k] == urls[..k];
      rows := rows + [UploadAnnotation(firstId + k, tripId, note, urls[k], CaptionAt(captions, k), now)];
    }
    assert urls[..|urls|] == urls;
  }

  /** Creates one annotation per accepted photo, numbering them from `firstId`. */
  method BuildUrlRows(firstId: nat, tripId: nat, note: string, photos: seq<PhotoInput>, now: Instant)
    returns (rows: seq<Annotation>)
    ensures rows == UrlAnnotations(firstId, tripId, note, AcceptedPhotos(photos), now)
    ensures IdsBelow(rows, firstId + |rows|)
  {
    rows := [];
    for k := 0 to |photos|
      invariant rows == UrlAnnotations(firstId, tripId, note, AcceptedPhotos(photos[..k]), now)
    {
      var more := Accepted(photos[k]);
      UrlRowsStep(firstId, tripId, note, photos, k, now);
      if more != [] {
        rows := rows + [UrlAnnotation(firstId + |rows|, tripId, note, more[0], now)];
      }
    }
    assert photos[..|photos|] == photos;
  }

  /** The rows for one more element: one more row for an accepted photo, none otherwise. */
  lemma UrlRowsStep(firstId: nat, tripId: nat, note: string, photos: seq<PhotoInput>, k: nat, now: Instant)
    requires k < |photos|
    ensures var before := UrlAnnotations(firstId, tripId, note, AcceptedPhotos(photos[..k]), now);
      var after := UrlAnnotations(firstId, tripId, note, AcceptedPhotos(photos[..k + 1]), now);
      var more := Accepted(photos[k]);
      && (more == [] ==> after == before)
      && (more != [] ==> after == before + [UrlAnnotation(firstId + |before|, tripId, note, more[0], now)])
  {
    AcceptedStep(photos, k);
    var before := AcceptedPhotos(photos[..k]);
    var more := Accepted(photos[k]);
    if more == [] {
      assert before + more == before;
    } else {
      assert more == [more[0]];
      UrlAnnotationsAppend(firstId, tripId, note, before, more[0], now);
    }
  }

  lemma UrlAnnotationsAppend(firstId: nat, tripId: nat, note: string, ps: seq<Photo>, p: Photo, now: Instant)
    ensures UrlAnnotations(firstId, tripId, note, ps + [p], now) ==
      UrlAnnotations(firstId, tripId, note, ps, now) + [UrlAnnotation(firstId + |ps|, tripId, note, p, now)]
  {
    assert (ps + [p])[..|ps|] == ps;
  }

  ghost predicate IdsBelow(anns: seq<Annotation>, bound: nat)
  {
    forall k :: 0 <= k < |anns| ==> anns[k].id < bound
  }

  lemma IdsBelowConcat(a: seq<Annotation>, b: seq<Annotation>, lo: nat, hi: nat)
    requires IdsBelow(a, lo) && IdsBelow(b, hi) && lo <= hi
    ensures IdsBelow(a + b, hi)
  {
  }

  function AnnotationsOf(anns: seq<Annotation>, tripId: nat): (r: seq<Annotation>)
    ensures forall a :: a in r <==> a in anns && a.tripId == tripId
  {
    if anns == [] then []
    else
      var last := anns[|anns| - 1];
      AnnotationsOf(anns[..|anns| - 1], tripId) + (if last.tripId == tripId then [last] else [])
  }

  datatype CreateOutcome = CreateRefused | Created(trip: TripRecord)
  datatype StartOutcome = AlreadyActive(active: TripRecord) | StartRefused | Started(trip: TripRecord)
  datatype CompleteOutcome = ActiveTripNotFound | InvalidCompletion | TripCompleted(trip: TripRecord)
  datatype DiaryOutcome = TripNotFound | DiarySaved | DiaryFailed

  /**
   * What the statistics response holds for the completed trips `ts`: sums
   * of distance, duration, carbon saved and footprint (rounded to two
   * decimals), the eco score, trips of the last 7 and 30 days, per-mode
   * and per-purpose counts, and the most frequent mode and destination.
   */
  ghost predicate StatsOf(ts: seq<TripRecord>, now: Instant, s: TripStats)
  {
    StatsTotals(ts, s) && StatsCounts(ts, now, s) && StatsFavourites(ts, s)
  }

  /** Sums of distance, duration, carbon saved and footprint, rounded to two decimals, and the eco score. */
  ghost predicate StatsTotals(ts: seq<TripRecord>, s: TripStats)
  {
    s.totalTrips == |ts| &&
    s.totalDistance == RoundTo(SumOf(ts, DistanceOrZero), 100) &&
    s.totalDuration == SumInts(ts, DurationOrZero) &&
    s.carbonSaved == RoundTo(SumOf(ts, Saved), 100) &&
    s.totalCarbonFootprint == RoundTo(SumOf(ts, CarbonFootprint), 100) &&
    s.ecoScore == EcoScore(SumOf(ts, CarbonFootprint), SumOf(ts, DistanceOrZero))
  }

  /** Trips of the last 7 and 30 days, and the per-mode and per-purpose counts. */
  ghost predicate StatsCounts(ts: seq<TripRecord>, now: Instant, s: TripStats)
  {
    s.tripsThisWeek == StartedSince(ts, now - 7 * 86400) &&
    s.tripsThisMonth == StartedSince(ts, now - 30 * 86400) &&
    s.modeBreakdown == Tally(ModesOf(ts)) &&
    s.purposeBreakdown == Tally(PurposesOf(ts))
  }

  ghost predicate StatsFavourites(ts: seq<TripRecord>, s: TripStats)
  {
    Favourites(ts, s.mostUsedMode, s.favouriteDestination)
  }

  /**
   * The most frequent mode and destination, "N/A" when there is none. The
   * destination is the first counted among equally frequent ones; the
   * database orders equally frequent modes as it likes, so the mode is
   * any of them.
   */
  ghost predicate Favourites(ts: seq<TripRecord>, mode: string, destination: string)
  {
    var modes := ModesOf(ts);
    var keys := DestinationKeys(ts);
    (modes == [] ==> mode == "N/A") &&
    (modes != [] ==> (mode in modes && forall m :: m in modes ==> Count(modes, m) <= Count(modes, mode))) &&
    (keys == [] ==> destination == "N/A") &&
    (keys != [] ==> FirstMostFrequent(keys, destination))
  }

  /** The most used mode and the favourite destination of the trips `ts`. */
  method FindFavourites(ts: seq<TripRecord>) returns (mode: string, destination: string)
    ensures Favourites(ts, mode, destination)
  {
    var mostUsed := MostFrequent(ModesOf(ts));
    mode := mostUsed.GetOr("N/A");
    destination := FavouriteDestination(ts);
  }

  /** The response built from the loop results and the favourites. */
  function StatsResponse(ts: seq<TripRecord>, now: Instant, totalCarbon: real, carbonSaved: real,
                         mostUsed: string, favourite: string): TripStats
  {
    var totalDistance := SumOf(ts, DistanceOrZero);
    TripStats(|ts|, RoundTo(totalDistance, 100), SumInts(ts, DurationOrZero), RoundTo(carbonSaved, 100),
              mostUsed, favourite,
              StartedSince(ts, now - 7 * 86400), StartedSince(ts, now - 30 * 86400),
              Tally(ModesOf(ts)), Tally(PurposesOf(ts)),
              RoundTo(totalCarbon, 100), EcoScore(totalCarbon, totalDistance))
  }

  /** Computes the statistics of the completed trips `ts` as the view does. */
  method ComputeStats(ts: seq<TripRecord>, now: Instant) returns (s: TripStats)
    ensures StatsOf(ts, now, s)
  {
    var totalCarbon, carbonSaved := CarbonTotals(ts);
    var mostUsed, favourite := FindFavourites(ts);
    s := StatsResponse(ts, now, totalCarbon, carbonSaved, mostUsed, favourite);
    assert StatsTotals(ts, s);
    assert StatsCounts(ts, now, s);
    assert StatsFavourites(ts, s);
  }


  /** The trips, waypoints and annotations tables, with the next free ids. */
  class TripStore {
    var trips: seq<TripRecord>
    var waypoints: seq<WaypointRow>
    var annotations: seq<Annotation>
    var nextTripId: nat
    var nextAnnotationId: nat

    /**
     * Ids are unique and below the next free id. (That no user has two
     * active trips is not an invariant: the list endpoint creates active
     * trips unchecked; StartKeepsOneActive and CompletionKeepsOneActive
     * show what the start and completion endpoints preserve.)
     */
    ghost predicate Valid()
      reads this
    {
      (forall i :: 0 <= i < |trips| ==> trips[i].id < nextTripId) &&
      (forall i, j :: 0 <= i < j < |trips| ==> trips[i].id != trips[j].id) &&
      (forall k :: 0 <= k < |waypoints| ==> waypoints[k].tripId < nextTripId) &&
      IdsBelow(annotations, nextAnnotationId)
    }

    constructor()
      ensures Valid() && trips == [] && waypoints == [] && annotations == []
    {
      trips, waypoints, annotations := [], [], [];
      nextTripId, nextAnnotationId := 0, 0;
    }

    /**
     * The list endpoint's create: a request the serializer refuses gets a
     * 400 and nothing is stored; otherwise the trip is saved with the
     * status default, active, whatever trips the user already has, and
     * keeps the mode it was sent.
     */
    method CreateTrip(userId: nat, input: TripCreateInput, predictMode: Predictor, predictPurpose: Predictor)
      returns (r: CreateOutcome)
      requires Valid()
      modifies this
      ensures Valid()
      ensures !CreateValid(input) ==>
        r == CreateRefused && trips == old(trips) && waypoints == old(waypoints) && nextTripId == old(nextTripId)
      ensures CreateValid(input) ==>
        r.Created? && trips == old(trips) + [r.trip] && IsActive(r.trip) &&
        CreatedFrom(r.trip, input, old(nextTripId), userId, DefaultStatus, predictMode, predictPurpose) &&
        r.trip.transportMode == input.transportMode.value && r.trip.modeConfidence == 0.0 &&
        waypoints == old(waypoints) + NewWaypoints(r.trip.id, input.waypoints)
      ensures annotations == old(annotations) && nextAnnotationId == old(nextAnnotationId)
    {
      if !CreateValid(input) {
        return CreateRefused;
      }
      ValidatedModeGiven(input);
      var trip, rows := Create(input, nextTripId, userId, DefaultStatus, predictMode, predictPurpose);
      trips := trips + [trip];
      waypoints := waypoints + rows;
      nextTripId := nextTripId + 1;
      r := Created(trip);
    }

    /**
     * Refuses a user who already has an active trip, reporting the latest
     * started one; then refuses (400) a request the serializer refuses;
     * otherwise creates the trip, active, with its waypoints.
     */
    method StartTrip(userId: nat, input: TripCreateInput, predictMode: Predictor, predictPurpose: Predictor)
      returns (r: StartOutcome)
      requires Valid()
      modifies this
      ensures Valid()
      ensures ActiveTripOf(old(trips), userId).Some? ==>
        r == AlreadyActive(old(trips)[ActiveTripOf(old(trips), userId).value]) &&
        trips == old(trips) && waypoints == old(waypoints) && nextTripId == old(nextTripId)
      ensures ActiveTripOf(old(trips), userId).None? && !CreateValid(input) ==>
        r == StartRefused && trips == old(trips) && waypoints == old(waypoints) && nextTripId == old(nextTripId)
      ensures ActiveTripOf(old(trips), userId).None? && CreateValid(input) ==>
        r.Started? && trips == old(trips) + [r.trip] && IsActive(r.trip) &&
        CreatedFrom(r.trip, input, old(nextTripId), userId, Active, predictMode, predictPurpose) &&
        r.trip.transportMode == input.transportMode.value && r.trip.modeConfidence == 0.0 &&
        waypoints == old(waypoints) + NewWaypoints(r.trip.id, input.waypoints)
      ensures annotations == old(annotations) && nextAnnotationId == old(nextAnnotationId)
    {
      var active := ActiveTripOf(trips, userId);
      if active.Some? {
        return AlreadyActive(trips[active.value]);
      }
      if !CreateValid(input) {
        return StartRefused;
      }
      ValidatedModeGiven(input);
      var trip, rows := Create(input, nextTripId, userId, Active, predictMode, predictPurpose);
      trips := trips + [trip];
      waypoints := waypoints + rows;
      nextTripId := nextTripId + 1;
      r := Started(trip);
    }

    /**
     * Completes the user's active trip `tripId`: 404 when there is none,
     * 400 when the serializer refuses the request (no destination, a blank
     * text, an end time too old); otherwise the trip is updated as
     * `ApplyCompletion` says and the path's waypoints are added.
     */
    method CompleteTrip(userId: nat, tripId: nat, req: CompletionRequest, now: Instant) returns (r: CompleteOutcome)
      requires Valid()
      modifies this
      ensures Valid()
      ensures FindTrip(old(trips), tripId, userId, true).None? ==>
        r == ActiveTripNotFound && trips == old(trips) && waypoints == old(waypoints)
      ensures FindTrip(old(trips), tripId, userId, true).Some? && !CompletionAccepted(req, now) ==>
        r == InvalidCompletion && trips == old(trips) && waypoints == old(waypoints)
      ensures FindTrip(old(trips), tripId, userId, true).Some? && CompletionAccepted(req, now) ==>
        var i := FindTrip(old(trips), tripId, userId, true).value;
        r == TripCompleted(ApplyCompletion(old(trips)[i], req, now)) &&
        trips == old(trips)[i := r.trip] &&
        waypoints == old(waypoints) + PathRows(PathPoints(req.path), tripId, now)
      ensures annotations == old(annotations) && nextTripId == old(nextTripId) && nextAnnotationId == old(nextAnnotationId)
    {
      var found := FindTrip(trips, tripId, userId, true);
      if found.None? {
        return ActiveTripNotFound;
      }
      if !CompletionAccepted(req, now) {
        return InvalidCompletion;
      }
      var i := found.value;
      var trip := trips[i];
      trip := WithCompletionFields(trip, req, now);
      trip := WithParsedDistance(trip, req.distance);
      var rows := CreatePathWaypoints(PathPoints(req.path), tripId, now);
      trip := WithFinalLabels(trip, req.finalMode, req.finalPurpose);
      trip := CalculateDuration(trip);
      trip := trip.(status := Completed);
      trips := trips[i := trip];
      waypoints := waypoints + rows;
      r := TripCompleted(trip);
    }

    /** The statistics of the user's completed trips, newest first. */
    method Stats(userId: nat, now: Instant) returns (s: TripStats)
      ensures StatsOf(UserCompletedTrips(trips, userId), now, s)
    {
      s := ComputeStats(UserCompletedTrips(trips, userId), now);
    }

    /** Appends annotation rows whose ids are fresh, advancing the next free id past them. */
    method StoreAnnotations(rows: seq<Annotation>)
      requires Valid() && IdsBelow(rows, nextAnnotationId + |rows|)
      modifies this
      ensures Valid()
      ensures annotations == old(annotations) + rows && nextAnnotationId == old(nextAnnotationId) + |rows|
      ensures trips == old(trips) && waypoints == old(waypoints) && nextTripId == old(nextTripId)
    {
      IdsBelowConcat(annotations, rows, nextAnnotationId, nextAnnotationId + |rows|);
      annotations := annotations + rows;
      nextAnnotationId := nextAnnotationId + |rows|;
    }

    /**
     * Adds a note-only annotation when the note is non-empty, then one
     * annotation per uploaded photo with its caption (or "") in the tags.
     * When the captions are a scalar or a non-empty object, the first
     * photo's lookup raises; the request runs in one transaction, so the
     * note row written before it is rolled back and nothing is stored.
     */
    method AddDiaryMultipart(userId: nat, tripId: nat, note: string, captions: CaptionsJson,
                             photoUrls: seq<string>, now: Instant) returns (r: DiaryOutcome)
      requires Valid()
      modifies this
      ensures Valid()
      ensures FindTrip(old(trips), tripId, userId, false).None? ==>
        r == TripNotFound && annotations == old(annotations) && nextAnnotationId == old(nextAnnotationId)
      ensures FindTrip(old(trips), tripId, userId, false).Some? && photoUrls != [] && CaptionsRaise(captions) ==>
        r == DiaryFailed && annotations == old(annotations) && nextAnnotationId == old(nextAnnotationId)
      ensures FindTrip(old(trips), tripId, userId, false).Some? && (photoUrls == [] || !CaptionsRaise(captions)) ==>
        var noteRow := NoteRow(old(nextAnnotationId), tripId, note, now);
        r == DiarySaved &&
        annotations == old(annotations) + noteRow +
          UploadAnnotations(old(nextAnnotationId) + |noteRow|, tripId, note, photoUrls, CaptionTexts(captions), now)
      ensures trips == old(trips) && waypoints == old(waypoints)
    {
      var found := FindTrip(trips, tripId, userId, false);
      if found.None? {
        return TripNotFound;
      }
      if photoUrls != [] && CaptionsRaise(captions) {
        return DiaryFailed;
      }
      var noteRow := NoteRow(nextAnnotationId, tripId, note, now);
      StoreAnnotations(noteRow);
      var rows := BuildUploadRows(nextAnnotationId, tripId, note, photoUrls, CaptionTexts(captions), now);
      StoreAnnotations(rows);
      r := DiarySaved;
    }

    /**
     * Adds a note-only annotation when the note is non-empty, then one
     * annotation per accepted photo holding its URL and caption. A null
     * `photos` (`None`) cannot be iterated: the request fails, and its
     * transaction rolls back the note row, so nothing is stored.
     */
    method AddDiaryUrls(userId: nat, tripId: nat, note: string, photos: Option<seq<PhotoInput>>, now: Instant)
      returns (r: DiaryOutcome)
      requires Valid()
      modifies this
      ensures Valid()
      ensures FindTrip(old(trips), tripId, userId, false).None? ==>
        r == TripNotFound && annotations == old(annotations) && nextAnnotationId == old(nextAnnotationId)
      ensures FindTrip(old(trips), tripId, userId, false).Some? && photos.None? ==>
        r == DiaryFailed && annotations == old(annotations) && nextAnnotationId == old(nextAnnotationId)
      ensures FindTrip(old(trips), tripId, userId, false).Some? && photos.Some? ==>
        var noteRow := NoteRow(old(nextAnnotationId), tripId, note, now);
        r == DiarySaved &&
        annotations == old(annotations) + noteRow +
          UrlAnnotations(old(nextAnnotationId) + |noteRow|, tripId, note, AcceptedPhotos(photos.value), now)
      ensures trips == old(trips) && waypoints == old(waypoints)
    {
      var found := FindTrip(trips, tripId, userId, false);
      if found.None? {
        return TripNotFound;
      }
      if photos.None? {
        return DiaryFailed;
      }
      var noteRow := NoteRow(nextAnnotationId, tripId, note, now);
      StoreAnnotations(noteRow);
      var rows := BuildUrlRows(nextAnnotationId, tripId, note, photos.value, now);
      StoreAnnotations(rows);
      r := DiarySaved;
    }

    /** The diary listing of one trip. */
    method Diaries(tripId: nat) returns (entries: seq<DiaryEntry>)
      ensures |entries| == |AnnotationsOf(annotations, tripId)|
      ensures forall k :: 0 <= k < |entries| ==> entries[k] == DiaryOf(NewestFirst(AnnotationsOf(annotations, tripId))[k])
    {
      entries := GetDiaries(AnnotationsOf(annotations, tripId));
    }
  }

  /** Starting a trip for a user without an active one keeps at most one active trip per user. */
  lemma StartKeepsOneActive(trips: seq<TripRecord>, userId: nat, t: TripRecord)
    requires AtMostOneActivePerUser(trips) && ActiveTripOf(trips, userId).None? && t.userId == userId
    ensures AtMostOneActivePerUser(trips + [t])
  {
    var ts := trips + [t];
    forall i, j | 0 <= i < j < |ts| && ts[i].userId == ts[j].userId
      ensures !(IsActive(ts[i]) && IsActive(ts[j]))
    {
      if j == |trips| {
        assert !ActiveOf(trips[i], userId);
      }
    }
  }

  /** The list endpoint's create can give a user a second active trip. */
  lemma ListCreateAllowsTwoActive(t: TripRecord, u: TripRecord)
    requires IsActive(t) && IsActive(u) && t.userId == u.userId
    ensures AtMostOneActivePerUser([t])
    ensures !AtMostOneActivePerUser([t] + [u])
  {
    assert ([t] + [u])[0] == t && ([t] + [u])[1] == u;
  }

  /** Completing an active trip keeps at most one active trip per user. */
  lemma CompletionKeepsOneActive(trips: seq<TripRecord>, i: nat, t: TripRecord)
    requires AtMostOneActivePerUser(trips) && i < |trips| && !IsActive(t)
    ensures AtMostOneActivePerUser(trips[i := t])
  {
  }

  /**
   * Round trip of the URL endpoint: once the annotations it stores for a
   * trip are in the table, the trip's diary lists, for each accepted
   * photo, an entry with the note and exactly that URL and caption.
   */
  lemma UrlDiaryRoundTrip(anns: seq<Annotation>, tripId: nat, firstId: nat, note: string,
                          accepted: seq<Photo>, now: Instant, entries: seq<DiaryEntry>)
    requires forall a :: a in UrlAnnotations(firstId, tripId, note, accepted, now) ==> a in anns
    requires |entries| == |AnnotationsOf(anns, tripId)|
    requires forall k :: 0 <= k < |entries| ==> entries[k] == DiaryOf(NewestFirst(AnnotationsOf(anns, tripId))[k])
    ensures forall k :: 0 <= k < |accepted| ==> DiaryEntry(firstId + k, note, [accepted[k]], now) in entries
  {
    var mine := AnnotationsOf(anns, tripId);
    DiariesNewestFirst(mine, entries);
    forall k | 0 <= k < |accepted|
      ensures DiaryEntry(firstId + k, note, [accepted[k]], now) in entries
    {
      UrlAnnotationStored(anns, tripId, firstId, note, accepted, now, k);
      UrlPhotoRoundTrip(firstId + k, tripId, note, accepted[k], now);
    }
  }

  lemma UrlAnnotationStored(anns: seq<Annotation>, tripId: nat, firstId: nat, note: string,
                            accepted: seq<Photo>, now: Instant, k: nat)
    requires forall a :: a in UrlAnnotations(firstId, tripId, note, accepted, now) ==> a in anns
    requires k < |accepted|
    ensures UrlAnnotation(firstId + k, tripId, note, accepted[k], now) in AnnotationsOf(anns, tripId)
  {
    var stored := UrlAnnotations(firstId, tripId, note, accepted, now);
    assert stored[k] in stored;
  }
}
