/**
 * The live trip-tracking page: a session that starts a geolocation watch,
 * grows a path fix by fix with a running distance, refetches nearby places
 * by distance or age, stops with a completion request, saves a diary, and
 * exports the path as GeoJSON or GPX. Browser and network calls are
 * parameters: their results are passed in, the requests they are given are
 * returned.
 */
module TripTracking {
  import opened Common
  import opened TripSerializers
  import opened TripViews

  /** A position fix, `[latitude, longitude]` in the page's arrays. */
  datatype Fix = Fix(lat: real, lon: real)

  /** The haversine distance in metres, left uninterpreted. */
  type Haversine = (Fix, Fix) -> real

  /** A JavaScript number rendered as text, left uninterpreted. */
  type NumberText = real -> string

  /** Length of the step that appending `cur` to `path` adds. */
  function StepLength(path: seq<Fix>, cur: Fix, dist: Haversine): real
  {
    if |path| > 0 then dist(path[|path| - 1], cur) else 0.0
  }

  /** Sum of the distances between consecutive fixes of `path`. */
  function PathLength(path: seq<Fix>, dist: Haversine): real
  {
    if |path| < 2 then 0.0
    else PathLength(path[..|path| - 1], dist) + StepLength(path[..|path| - 1], path[|path| - 1], dist)
  }

  /** Appending one fix adds exactly the last step to the path length. */
  lemma PathLengthAppend(path: seq<Fix>, cur: Fix, dist: Haversine)
    ensures PathLength(path + [cur], dist) == PathLength(path, dist) + StepLength(path, cur, dist)
  {
    assert (path + [cur])[..|path|] == path;
  }

  /** With non-negative steps the path length is non-negative and never shrinks when the path grows. */
  lemma {:induction false} PathLengthMonotone(path: seq<Fix>, more: seq<Fix>, dist: Haversine)
    requires forall a, b :: dist(a, b) >= 0.0
    ensures 0.0 <= PathLength(path, dist) <= PathLength(path + more, dist)
  {
    if more == [] {
      assert path + more == path;
      if |path| >= 2 {
        PathLengthMonotone(path[..|path| - 1], [], dist);
        assert path[..|path| - 1] + [] == path[..|path| - 1];
      }
    } else {
      var init := more[..|more| - 1];
      PathLengthMonotone(path, init, dist);
      assert path + more == (path + init) + [more[|more| - 1]];
      PathLengthAppend(path + init, more[|more| - 1], dist);
    }
  }

  // ---------------------------------------------------------------------
  // Remote trip ids
  // ---------------------------------------------------------------------

  /** The start endpoint's answer: the keys the page looks at. */
  datatype StartResponse = StartResponse(id: Option<JVal>, tripId: Option<JVal>, uuid: Option<JVal>)

  /** JavaScript `String(v)` of a JSON scalar. */
  function JsText(v: JVal, showNumber: NumberText): string
  {
    match v
    case JNum(n) => showNumber(n)
    case JText(s, _) => s
    case JBool(b) => if b then "true" else "false"
  }

  /**
   * `(id || trip_id || uuid)?.toString() || null`: the text of the first
   * truthy key (or of `uuid` when none is), dropped when empty or missing.
   */
  function RemoteId(res: StartResponse, showNumber: NumberText): (r: Option<string>)
    ensures r.Some? ==> r.value != ""
    ensures Truthy(res.id) && res.id.value.JText? ==> r == Some(res.id.value.text)
    ensures !Truthy(res.id) && Truthy(res.tripId) && res.tripId.value.JText? ==> r == Some(res.tripId.value.text)
    ensures res.id.None? && res.tripId.None? && res.uuid.None? ==> r.None?
  {
    var v := Or(Or(res.id, res.tripId), res.uuid);
    if v.None? then None
    else
      var text := JsText(v.value, showNumber);
      if text != "" then Some(text) else None
  }

  /** A truthy id string. */
  predicate HasId(id: Option<string>)
  {
    id.Some? && id.value != ""
  }

  // ---------------------------------------------------------------------
  // Requests sent to the backend
  // ---------------------------------------------------------------------

  /** The body of the start call: the start time and the last known fix, if any. */
  datatype StartRequest = StartRequest(startTime: Instant, lat: Option<real>, lon: Option<real>)

  /** A path element of the completion body, `{lat, lon}`. */
  datatype PathEntry = PathEntry(lat: real, lon: real)

  /** The body of the completion call. */
  datatype CompleteRequest = CompleteRequest(tripId: string, endTime: Instant, distanceKm: real, path: seq<PathEntry>)

  function PathEntries(path: seq<Fix>): (r: seq<PathEntry>)
    ensures |r| == |path|
    ensures forall k :: 0 <= k < |path| ==> r[k] == PathEntry(path[k].lat, path[k].lon)
  {
    seq(|path|, k requires 0 <= k < |path| => PathEntry(path[k].lat, path[k].lon))
  }

  /** How the backend's completion endpoint reads one `{lat, lon}` element. */
  function AsPathPoint(e: PathEntry): PathPoint
  {
    PointObject(Some(JNum(e.lat)), None, Some(JNum(e.lon)), None, None)
  }

  function AsPathPoints(entries: seq<PathEntry>): (r: seq<PathPoint>)
    ensures |r| == |entries|
    ensures forall k :: 0 <= k < |entries| ==> r[k] == AsPathPoint(entries[k])
  {
    seq(|entries|, k requires 0 <= k < |entries| => AsPathPoint(entries[k]))
  }

  /**
   * The backend's path loop reads the entries the page builds as one
   * waypoint per fix, in order, with the same coordinates, when no fix
   * lies on the equator or the prime meridian. This is a property of the
   * loop alone: the completion body the page sends is refused before the
   * loop runs (`StopRequestRefused`).
   */
  lemma StopPathReachesBackend(path: seq<Fix>, tripId: nat, now: Instant)
    requires forall k :: 0 <= k < |path| ==> path[k].lat != 0.0 && path[k].lon != 0.0
    ensures |PathRows(AsPathPoints(PathEntries(path)), tripId, now)| == |path|
    ensures forall k :: 0 <= k < |path| ==>
      PathRows(AsPathPoints(PathEntries(path)), tripId, now)[k] == WaypointRow(tripId, path[k].lat, path[k].lon, now)
  {
    var points := AsPathPoints(PathEntries(path));
    forall k | 0 <= k < |points|
      ensures PointStepOf(points[k]) == Take(path[k].lat, path[k].lon)
    {
    }
    PathRowsAllTaken(points, tripId, now);
  }

  /**
   * How the completion endpoint reads the page's completion body: the end
   * time, the distance and the path are there, but no destination and no
   * other field.
   */
  function AsCompletionRequest(req: CompleteRequest): (c: CompletionRequest)
    ensures c.destLat.None? && c.destLng.None?
    ensures PathPoints(c.path) == AsPathPoints(req.path)
  {
    CompletionRequest(Some(req.endTime), None, None, None, 0, None, None, Some(JNum(req.distanceKm)),
                      PathArray(AsPathPoints(req.path)))
  }

  /**
   * The completion body the page sends lacks the required destination
   * coordinates, so the endpoint answers 400 and stores nothing, whenever
   * it is sent.
   */
  lemma StopRequestRefused(req: CompleteRequest, now: Instant)
    ensures !CompletionAccepted(AsCompletionRequest(req), now)
  {
  }

  /**
   * A fix with latitude 0 is falsy under the backend's key fallback and
   * has no `latitude` key, so the backend skips it.
   */
  lemma ZeroLatitudeSkipped(e: PathEntry)
    requires e.lat == 0.0
    ensures PointStepOf(AsPathPoint(e)) == Skip
  {
  }

  /** One photo of the URL diary call: the uploaded URL and the caption at the same position, if any. */
  datatype PhotoRequest = PhotoRequest(url: string, caption: Option<string>)

  function PhotoRequests(urls: seq<string>, captions: seq<string>): (r: seq<PhotoRequest>)
    ensures |r| == |urls|
    ensures forall k :: 0 <= k < |urls| ==>
      r[k].url == urls[k] && r[k].caption == (if k < |captions| then Some(captions[k]) else None)
  {
    seq(|urls|, k requires 0 <= k < |urls| =>
      PhotoRequest(urls[k], if k < |captions| then Some(captions[k]) else None))
  }

  function AsPhotoInputs(photos: seq<PhotoRequest>): (r: seq<PhotoInput>)
    ensures |r| == |photos|
    ensures forall k :: 0 <= k < |photos| ==> r[k] == PhotoObject(Some(photos[k].url), photos[k].caption)
  {
    seq(|photos|, k requires 0 <= k < |photos| => PhotoObject(Some(photos[k].url), photos[k].caption))
  }

  /**
   * Every uploaded photo the page posts to the URL diary endpoint is
   * stored, with its URL and caption, when the upload gave non-empty URLs.
   */
  lemma {:induction false} UploadedPhotosAccepted(photos: seq<PhotoRequest>)
    requires forall k :: 0 <= k < |photos| ==> photos[k].url != ""
    ensures AcceptedPhotos(AsPhotoInputs(photos)) == seq(|photos|, k requires 0 <= k < |photos| => Photo(photos[k].url, photos[k].caption))
  {
    if photos != [] {
      var init := photos[..|photos| - 1];
      UploadedPhotosAccepted(init);
      assert AsPhotoInputs(photos)[..|photos| - 1] == AsPhotoInputs(init);
    }
  }

  /** The diary call the page makes, if any. */
  datatype DiaryCall =
    | NoDiaryCall
    | MultipartCall(tripRef: string, note: string, files: seq<string>, captions: seq<string>)
    | UrlsCall(tripRef: string, note: string, photos: seq<PhotoRequest>)

  /**
   * Without a trip id the multipart endpoint gets "new"; with one, photos
   * go through storage and the URL endpoint when storage is configured and
   * there are files, otherwise through the multipart endpoint. A failed
   * upload makes no diary call.
   */
  function DiaryCallFor(tripRef: Option<string>, note: string, files: seq<string>, captions: seq<string>,
                        storageReady: bool, uploaded: Option<seq<string>>): (r: DiaryCall)
    ensures !HasId(tripRef) ==> r == MultipartCall("new", note, files, captions)
    ensures HasId(tripRef) && !(storageReady && |files| > 0) ==> r == MultipartCall(tripRef.value, note, files, captions)
    ensures HasId(tripRef) && storageReady && |files| > 0 && uploaded.Some? ==>
      r.UrlsCall? && r.tripRef == tripRef.value && |r.photos| == |uploaded.value|
    ensures r.NoDiaryCall? <==> HasId(tripRef) && storageReady && |files| > 0 && uploaded.None?
  {
    if !HasId(tripRef) then MultipartCall("new", note, files, captions)
    else if storageReady && |files| > 0 then
      if uploaded.Some? then UrlsCall(tripRef.value, note, PhotoRequests(uploaded.value, captions)) else NoDiaryCall
    else MultipartCall(tripRef.value, note, files, captions)
  }

  // ---------------------------------------------------------------------
  // Nearby places
  // ---------------------------------------------------------------------

  datatype Place = Place(name: string, kind: string, lat: real, lon: real)

  /**
   * Nearby places are due without a previous fetch, after moving more than
   * 150 m from where they were last fetched, or 60 s after the last fetch.
   */
  predicate NearbyDue(last: Option<Fix>, lastAt: int, cur: Fix, now: int, dist: Haversine)
  {
    last.None? || dist(last.value, cur) > 150.0 || now - lastAt > 60000
  }

  /** The first fix always triggers a fetch; a fix 150 m or less away within 60 s does not. */
  lemma NearbyDueCases(last: Option<Fix>, lastAt: int, cur: Fix, now: int, dist: Haversine)
    ensures last.None? ==> NearbyDue(last, lastAt, cur, now, dist)
    ensures last.Some? && dist(last.value, cur) <= 150.0 && now - lastAt <= 60000 ==> !NearbyDue(last, lastAt, cur, now, dist)
  {
  }

  // ---------------------------------------------------------------------
  // Exports
  // ---------------------------------------------------------------------

  /** A GeoJSON `LineString` feature with the active trip id as its only property. */
  datatype LineFeature = LineFeature(coordinates: seq<seq<real>>, activeTripId: Option<string>)

  /**
   * The GeoJSON export: nothing for fewer than two fixes; otherwise one
   * `LineString` whose positions are `[longitude, latitude]`, in path order.
   */
  function GeoJson(path: seq<Fix>, activeTripId: Option<string>): (r: Option<LineFeature>)
    ensures r.None? <==> |path| < 2
    ensures r.Some? ==> |r.value.coordinates| == |path| >= 2 && r.value.activeTripId == activeTripId
    ensures r.Some? ==> forall k :: 0 <= k < |path| ==> r.value.coordinates[k] == [path[k].lon, path[k].lat]
  {
    if |path| < 2 then None
    else Some(LineFeature(seq(|path|, k requires 0 <= k < |path| => [path[k].lon, path[k].lat]), activeTripId))
  }

  /** Reads a `[longitude, latitude]` position back into a fix. */
  function FixOfPosition(position: seq<real>): Option<Fix>
  {
    if |position| == 2 then Some(Fix(position[1], position[0])) else None
  }

  /** Reading the exported positions back gives the path. */
  lemma GeoJsonRoundTrip(path: seq<Fix>, activeTripId: Option<string>)
    requires |path| >= 2
    ensures forall k :: 0 <= k < |path| ==> FixOfPosition(GeoJson(path, activeTripId).value.coordinates[k]) == Some(path[k])
  {
  }

  const GpxHeader: string := "<?xml version=\"1.0\" encoding=\"UTF-8\"?>\n"
  const GpxOpen: string := "<gpx version=\"1.1\" creator=\"Travelogy\"><trk><name>Active Trip</name><trkseg>"
  const GpxClose: string := "</trkseg></trk></gpx>"

  /** One track point, latitude first. */
  function TrackPoint(p: Fix, show: NumberText): string
  {
    "<trkpt lat=\"" + show(p.lat) + "\" lon=\"" + show(p.lon) + "\"></trkpt>"
  }

  /** The track points of `path`, one per fix, in order. */
  function TrackPoints(path: seq<Fix>, show: NumberText): (r: seq<string>)
    ensures |r| == |path|
    ensures forall k :: 0 <= k < |path| ==> r[k] == TrackPoint(path[k], show)
  {
    seq(|path|, k requires 0 <= k < |path| => TrackPoint(path[k], show))
  }

  /** The track points joined with no separator. */
  function TrackSegment(path: seq<Fix>, show: NumberText): string
  {
    Concat(TrackPoints(path, show))
  }

  /**
   * The GPX export: nothing for fewer than two fixes; otherwise the XML
   * declaration, one `trk` with one `trkseg` holding the track points, and
   * the closing tags.
   */
  function Gpx(path: seq<Fix>, show: NumberText): (r: Option<string>)
    ensures r.None? <==> |path| < 2
    ensures r.Some? ==> r.value == GpxHeader + GpxOpen + TrackSegment(path, show) + GpxClose
  {
    if |path| < 2 then None else Some(GpxHeader + GpxOpen + TrackSegment(path, show) + GpxClose)
  }

  /**
   * One track point per fix, in path order: the `k`-th fix's point sits
   * between the points of the fixes before it and those after it.
   */
  lemma TrackPointAt(path: seq<Fix>, k: nat, show: NumberText)
    requires k < |path|
    ensures TrackSegment(path, show) ==
      TrackSegment(path[..k], show) + TrackPoint(path[k], show) + TrackSegment(path[k + 1..], show)
  {
    assert TrackPoints(path, show) == TrackPoints(path[..k], show) + [TrackPoint(path[k], show)] + TrackPoints(path[k + 1..], show);
    ConcatAround(TrackPoints(path[..k], show), TrackPoint(path[k], show), TrackPoints(path[k + 1..], show));
  }

  /** Exporting a longer path extends the segment by the new fixes' points only. */
  lemma TrackSegmentAppend(path: seq<Fix>, more: seq<Fix>, show: NumberText)
    ensures TrackSegment(path + more, show) == TrackSegment(path, show) + TrackSegment(more, show)
  {
    assert TrackPoints(path + more, show) == TrackPoints(path, show) + TrackPoints(more, show);
    ConcatAppend(TrackPoints(path, show), TrackPoints(more, show));
  }

  // ---------------------------------------------------------------------
  // The session
  // ---------------------------------------------------------------------

  const GeolocationUnsupported: string := "Geolocation is not supported by your browser"

  /** The page's tracking and diary state. */
  class TrackingSession {
    const dist: Haversine
    const show: NumberText
    var isTracking: bool
    var path: seq<Fix>
    var distanceMeters: real
    var watchId: Option<int>
    var activeTripId: Option<string>
    var error: Option<string>
    var startTime: Option<int>
    var currentPos: Option<Fix>
    var initialCenter: Option<Fix>
    var lastPoint: Option<Fix>
    var nearby: seq<Place>
    var lastNearby: Option<Fix>
    var lastNearbyAt: int
    var note: string
    var files: seq<string>
    var previews: seq<string>
    var captions: seq<string>
    var savingDiary: bool

    /** The running distance is always the length of the recorded path. */
    ghost predicate Valid()
      reads this
    {
      distanceMeters == PathLength(path, dist)
    }

    constructor(dist: Haversine, show: NumberText)
      ensures Valid() && this.dist == dist && this.show == show
      ensures !isTracking && path == [] && distanceMeters == 0.0 && watchId.None? && activeTripId.None?
      ensures lastNearby.None? && lastNearbyAt == 0 && note == "" && files == [] && captions == [] && previews == []
    {
      this.dist, this.show := dist, show;
      isTracking, path, distanceMeters := false, [], 0.0;
      watchId, activeTripId, error, startTime := None, None, None, None;
      currentPos, initialCenter, lastPoint := None, None, None;
      nearby, lastNearby, lastNearbyAt := [], None, 0;
      note, files, previews, captions, savingDiary := "", [], [], [], false;
    }

    /**
     * Without geolocation only the error is set. Otherwise the initial fix
     * (if one came) becomes the current and last point, the watch starts,
     * tracking is on, and the start call is sent; its id, when it has one,
     * becomes the active trip id. The path and distance are kept.
     */
    method Start(geolocation: bool, initialFix: Option<Fix>, newWatchId: int, now: int,
                 response: Option<StartResponse>) returns (request: Option<StartRequest>)
      requires Valid()
      modifies this
      ensures Valid()
      ensures path == old(path) && distanceMeters == old(distanceMeters)
      ensures nearby == old(nearby) && lastNearby == old(lastNearby) && lastNearbyAt == old(lastNearbyAt)
      ensures note == old(note) && files == old(files) && previews == old(previews)
      ensures captions == old(captions) && savingDiary == old(savingDiary)
      ensures !geolocation ==>
        request.None? && error == Some(GeolocationUnsupported) &&
        isTracking == old(isTracking) && watchId == old(watchId) && activeTripId == old(activeTripId) &&
        startTime == old(startTime) && currentPos == old(currentPos) && initialCenter == old(initialCenter) &&
        lastPoint == old(lastPoint)
      ensures geolocation ==>
        error.None? && isTracking && watchId == Some(newWatchId) && startTime == Some(now) &&
        currentPos == (if initialFix.Some? then initialFix else old(currentPos)) &&
        initialCenter == (if initialFix.Some? then initialFix else old(initialCenter)) &&
        lastPoint == (if initialFix.Some? then initialFix else old(lastPoint)) &&
        request == Some(StartRequest(now, if lastPoint.Some? then Some(lastPoint.value.lat) else None,
                                          if lastPoint.Some? then Some(lastPoint.value.lon) else None))
      ensures geolocation && response.Some? && RemoteId(response.value, show).Some? ==>
        activeTripId == RemoteId(response.value, show)
      ensures !(geolocation && response.Some? && RemoteId(response.value, show).Some?) ==> activeTripId == old(activeTripId)
    {
      error := None;
      if !geolocation {
        error := Some(GeolocationUnsupported);
        return None;
      }
      request := Begin(initialFix, newWatchId, now, response);
    }

    /**
     * The start with geolocation: the initial fix, the watch, the start
     * time, the start call and the id it answers with.
     */
    method Begin(initialFix: Option<Fix>, newWatchId: int, now: int, response: Option<StartResponse>)
      returns (request: Option<StartRequest>)
      modifies this`currentPos, this`initialCenter, this`lastPoint
      modifies this`watchId, this`isTracking, this`startTime, this`activeTripId
      ensures isTracking && watchId == Some(newWatchId) && startTime == Some(now)
      ensures currentPos == (if initialFix.Some? then initialFix else old(currentPos))
      ensures initialCenter == (if initialFix.Some? then initialFix else old(initialCenter))
      ensures lastPoint == (if initialFix.Some? then initialFix else old(lastPoint))
      ensures request == Some(StartRequest(now, if lastPoint.Some? then Some(lastPoint.value.lat) else None,
                                                if lastPoint.Some? then Some(lastPoint.value.lon) else None))
      ensures activeTripId ==
        if response.Some? && RemoteId(response.value, show).Some? then RemoteId(response.value, show) else old(activeTripId)
    {
      TakeInitialFix(initialFix);
      watchId := Some(newWatchId);
      isTracking := true;
      startTime := Some(now);
      request := Some(StartRequest(now, if lastPoint.Some? then Some(lastPoint.value.lat) else None,
                                        if lastPoint.Some? then Some(lastPoint.value.lon) else None));
      AdoptTripId(response);
    }

    /** The initial fix, when one came, becomes the current position, the centre and the last point. */
    method TakeInitialFix(initialFix: Option<Fix>)
      modifies this`currentPos, this`initialCenter, this`lastPoint
      ensures currentPos == (if initialFix.Some? then initialFix else old(currentPos))
      ensures initialCenter == (if initialFix.Some? then initialFix else old(initialCenter))
      ensures lastPoint == (if initialFix.Some? then initialFix else old(lastPoint))
    {
      if initialFix.Some? {
        currentPos := initialFix;
        initialCenter := initialFix;
        lastPoint := initialFix;
      }
    }

    /** The id of a start response, when it has one, becomes the active trip id. */
    method AdoptTripId(response: Option<StartResponse>)
      modifies this`activeTripId
      ensures activeTripId ==
        if response.Some? && RemoteId(response.value, show).Some? then RemoteId(response.value, show) else old(activeTripId)
    {
      if response.Some? {
        var newId := RemoteId(response.value, show);
        if newId.Some? {
          activeTripId := newId;
        }
      }
    }

    /**
     * A watched fix: appended to the path, the distance grows by the last
     * step, and nearby places are fetched when due; only a successful
     * fetch records where and when it happened.
     */
    method OnFix(cur: Fix, now: int, fetched: Option<seq<Place>>) returns (fetch: bool)
      requires Valid()
      modifies this
      ensures Valid()
      ensures path == old(path) + [cur]
      ensures distanceMeters == old(distanceMeters) + StepLength(old(path), cur, dist)
      ensures lastPoint == Some(cur) && currentPos == Some(cur)
      ensures initialCenter == (if old(initialCenter).Some? then old(initialCenter) else Some(cur))
      ensures fetch == NearbyDue(old(lastNearby), old(lastNearbyAt), cur, now, dist)
      ensures fetch && fetched.Some? ==> nearby == fetched.value && lastNearby == Some(cur) && lastNearbyAt == now
      ensures !(fetch && fetched.Some?) ==>
        nearby == old(nearby) && lastNearby == old(lastNearby) && lastNearbyAt == old(lastNearbyAt)
      ensures isTracking == old(isTracking) && watchId == old(watchId) && activeTripId == old(activeTripId)
      ensures error == old(error)
      ensures startTime == old(startTime)
      ensures note == old(note) && files == old(files) && previews == old(previews)
      ensures captions == old(captions) && savingDiary == old(savingDiary)
    {
      Advance(cur);
      fetch := FetchNearby(cur, now, fetched);
    }

    /**
     * The fix joins the path: it is the current position and the last
     * point, the centre when none was set, and the distance grows by the step.
     */
    method Advance(cur: Fix)
      requires Valid()
      modifies this`currentPos, this`initialCenter, this`lastPoint, this`path, this`distanceMeters
      ensures Valid()
      ensures path == old(path) + [cur]
      ensures distanceMeters == old(distanceMeters) + StepLength(old(path), cur, dist)
      ensures lastPoint == Some(cur) && currentPos == Some(cur)
      ensures initialCenter == (if old(initialCenter).Some? then old(initialCenter) else Some(cur))
    {
      currentPos := Some(cur);
      if initialCenter.None? {
        initialCenter := Some(cur);
      }
      PathLengthAppend(path, cur, dist);
      distanceMeters := distanceMeters + StepLength(path, cur, dist);
      lastPoint := Some(cur);
      path := path + [cur];
    }

    /** The nearby-places fetch of a fix: made when due, recorded only when it succeeds. */
    method FetchNearby(cur: Fix, now: int, fetched: Option<seq<Place>>) returns (fetch: bool)
      modifies this`nearby, this`lastNearby, this`lastNearbyAt
      ensures fetch == NearbyDue(old(lastNearby), old(lastNearbyAt), cur, now, dist)
      ensures fetch && fetched.Some? ==> nearby == fetched.value && lastNearby == Some(cur) && lastNearbyAt == now
      ensures !(fetch && fetched.Some?) ==>
        nearby == old(nearby) && lastNearby == old(lastNearby) && lastNearbyAt == old(lastNearbyAt)
      ensures path == old(path) && distanceMeters == old(distanceMeters)
      ensures currentPos == old(currentPos) && initialCenter == old(initialCenter) && lastPoint == old(lastPoint)
      ensures isTracking == old(isTracking) && watchId == old(watchId) && activeTripId == old(activeTripId)
      ensures error == old(error)
      ensures startTime == old(startTime)
      ensures note == old(note) && files == old(files) && previews == old(previews)
      ensures captions == old(captions) && savingDiary == old(savingDiary)
    {
      fetch := lastNearby.None? || dist(lastNearby.value, cur) > 150.0 || now - lastNearbyAt > 60000;
      if fetch && fetched.Some? {
        nearby := fetched.value;
        lastNearby := Some(cur);
        lastNearbyAt := now;
      }
    }

    /** A watch error is shown. */
    method OnWatchError(message: string)
      modifies this
      ensures error == Some(message)
      ensures path == old(path) && distanceMeters == old(distanceMeters)
      ensures currentPos == old(currentPos) && initialCenter == old(initialCenter) && lastPoint == old(lastPoint)
      ensures nearby == old(nearby) && lastNearby == old(lastNearby) && lastNearbyAt == old(lastNearbyAt)
      ensures note == old(note) && files == old(files) && previews == old(previews)
      ensures captions == old(captions) && savingDiary == old(savingDiary)
      ensures isTracking == old(isTracking) && watchId == old(watchId) && activeTripId == old(activeTripId)
      ensures startTime == old(startTime)
    {
      error := Some(message);
    }

    /**
     * Clears the watch when there is one, stops tracking, and, when a trip
     * id exists, sends the completion with the distance in kilometres to
     * three decimals and the path as `{lat, lon}` in order. A failed call
     * changes nothing; the trip id and the path are kept.
     */
    method Stop(now: int) returns (cleared: Option<int>, request: Option<CompleteRequest>)
      requires Valid()
      modifies this
      ensures Valid()
      ensures cleared == old(watchId) && watchId.None? && !isTracking
      ensures HasId(activeTripId) ==>
        request == Some(CompleteRequest(activeTripId.value, now, RoundTo(distanceMeters / 1000.0, 1000), PathEntries(path)))
      ensures !HasId(activeTripId) ==> request.None?
      ensures path == old(path) && distanceMeters == old(distanceMeters) && activeTripId == old(activeTripId)
      ensures error == old(error)
      ensures startTime == old(startTime)
      ensures currentPos == old(currentPos) && initialCenter == old(initialCenter) && lastPoint == old(lastPoint)
      ensures nearby == old(nearby) && lastNearby == old(lastNearby) && lastNearbyAt == old(lastNearbyAt)
      ensures note == old(note) && files == old(files) && previews == old(previews)
      ensures captions == old(captions) && savingDiary == old(savingDiary)
    {
      cleared := watchId;
      watchId := None;
      isTracking := false;
      if HasId(activeTripId) {
        request := Some(CompleteRequest(activeTripId.value, now, RoundTo(distanceMeters / 1000.0, 1000), PathEntries(path)));
      } else {
        request := None;
      }
    }

    /** New files replace the selection; their captions start empty. */
    method ChooseFiles(chosen: seq<string>, previewUrls: seq<string>)
      requires |previewUrls| == |chosen|
      modifies this
      ensures files == chosen && previews == previewUrls
      ensures |captions| == |chosen| && forall k :: 0 <= k < |captions| ==> captions[k] == ""
      ensures note == old(note) && savingDiary == old(savingDiary)
      ensures path == old(path) && distanceMeters == old(distanceMeters)
      ensures currentPos == old(currentPos) && initialCenter == old(initialCenter) && lastPoint == old(lastPoint)
      ensures nearby == old(nearby) && lastNearby == old(lastNearby) && lastNearbyAt == old(lastNearbyAt)
      ensures isTracking == old(isTracking) && watchId == old(watchId) && activeTripId == old(activeTripId)
      ensures error == old(error) && startTime == old(startTime)
    {
      files := chosen;
      previews := previewUrls;
      captions := seq(|chosen|, k => "");
    }

    /**
     * Saves the diary. An empty note with no files does nothing. Without a
     * trip id a trip is started for the diary; its id, if any, becomes the
     * active one. The call made is `DiaryCallFor`; only a call that was made
     * and succeeded clears the note, files, captions and previews.
     */
    method SaveDiary(created: Option<StartResponse>, storageReady: bool, uploaded: Option<seq<string>>,
                     succeeded: bool) returns (call: DiaryCall)
      requires Valid()
      modifies this`savingDiary, this`activeTripId, this`note, this`files, this`captions, this`previews
      ensures Valid()
      ensures old(note) == "" && old(files) == [] ==>
        call == NoDiaryCall && activeTripId == old(activeTripId) && note == old(note) && files == old(files) &&
        captions == old(captions) && previews == old(previews) && savingDiary == old(savingDiary)
      ensures !(old(note) == "" && old(files) == []) ==>
        var started := if created.Some? then RemoteId(created.value, show) else None;
        var tripRef := if HasId(old(activeTripId)) then old(activeTripId) else started;
        activeTripId == (if HasId(old(activeTripId)) || started.None? then old(activeTripId) else started) &&
        call == DiaryCallFor(tripRef, old(note), old(files), old(captions), storageReady, uploaded) &&
        !savingDiary
      ensures !(old(note) == "" && old(files) == []) && call != NoDiaryCall && succeeded ==>
        note == "" && files == [] && captions == [] && previews == []
      ensures (old(note) == "" && old(files) == []) || call == NoDiaryCall || !succeeded ==>
        note == old(note) && files == old(files) && captions == old(captions) && previews == old(previews)
      ensures path == old(path) && distanceMeters == old(distanceMeters)
      ensures currentPos == old(currentPos) && initialCenter == old(initialCenter) && lastPoint == old(lastPoint)
      ensures nearby == old(nearby) && lastNearby == old(lastNearby) && lastNearbyAt == old(lastNearbyAt)
      ensures isTracking == old(isTracking) && watchId == old(watchId)
      ensures error == old(error) && startTime == old(startTime)
    {
      if note == "" && |files| == 0 {
        return NoDiaryCall;
      }
      call := Submit(created, storageReady, uploaded, succeeded);
    }

    /** A diary with a note or files: the call for its trip, and the form cleared when it succeeded. */
    method Submit(created: Option<StartResponse>, storageReady: bool, uploaded: Option<seq<string>>,
                  succeeded: bool) returns (call: DiaryCall)
      modifies this`savingDiary, this`activeTripId, this`note, this`files, this`captions, this`previews
      ensures var started := if created.Some? then RemoteId(created.value, show) else None;
        var tripRef := if HasId(old(activeTripId)) then old(activeTripId) else started;
        && activeTripId == (if HasId(old(activeTripId)) || started.None? then old(activeTripId) else started)
        && call == DiaryCallFor(tripRef, old(note), old(files), old(captions), storageReady, uploaded)
        && !savingDiary
      ensures call != NoDiaryCall && succeeded ==> note == "" && files == [] && captions == [] && previews == []
      ensures call == NoDiaryCall || !succeeded ==>
        note == old(note) && files == old(files) && captions == old(captions) && previews == old(previews)
    {
      savingDiary := true;
      var tripRef := DiaryTrip(created);
      call := DiaryCallFor(tripRef, note, files, captions, storageReady, uploaded);
      if call != NoDiaryCall && succeeded {
        ClearDiary();
      }
      savingDiary := false;
    }

    /**
     * The trip a diary is saved to: the active one, or else the one started
     * for it, whose id, when it has one, becomes the active trip id.
     */
    method DiaryTrip(created: Option<StartResponse>) returns (tripRef: Option<string>)
      modifies this`activeTripId
      ensures var started := if created.Some? then RemoteId(created.value, show) else None;
        && tripRef == (if HasId(old(activeTripId)) then old(activeTripId) else started)
        && activeTripId == (if HasId(old(activeTripId)) || started.None? then old(activeTripId) else started)
    {
      tripRef := activeTripId;
      if !HasId(tripRef) {
        tripRef := if created.Some? then RemoteId(created.value, show) else None;
        if tripRef.Some? {
          activeTripId := tripRef;
        }
      }
    }

    /** A saved diary clears the note, the files, their captions and their previews. */
    method ClearDiary()
      modifies this`note, this`files, this`captions, this`previews
      ensures note == "" && files == [] && captions == [] && previews == []
    {
      note := "";
      files := [];
      captions := [];
      previews := [];
    }
  }

  /** The distance sent on stop is the recorded path's length, in kilometres to three decimals. */
  lemma StopDistanceIsPathLength(distanceMeters: real, path: seq<Fix>, dist: Haversine)
    requires distanceMeters == PathLength(path, dist)
    requires forall a, b :: dist(a, b) >= 0.0
    ensures RoundTo(distanceMeters / 1000.0, 1000) >= 0.0
    ensures PathLength(path, dist) / 1000.0 - 0.0005 < RoundTo(distanceMeters / 1000.0, 1000) <= PathLength(path, dist) / 1000.0 + 0.0005
  {
    PathLengthMonotone(path, [], dist);
    assert path + [] == path;
  }
}
