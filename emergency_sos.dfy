/**
 * The medical-emergency button: it locates the user, turns the hospitals
 * and clinics the map service returns into candidates and picks the
 * nearest, and sends an emergency report, falling back to the share
 * sheet or a `mailto:` draft when the backend does not take it.
 */
module EmergencySOS {
  import opened Common
  import opened UriComponent

  /** The great-circle distance in metres between two latitude/longitude pairs. */
  type Haversine = (real, real, real, real) -> real

  /** A device position fix. */
  datatype Fix = Fix(lat: real, lon: real, accuracy: Option<real>)

  /** A way's centre as the map service reports it; either coordinate may be absent. */
  datatype Center = Center(lat: Option<real>, lon: Option<real>)

  /** The tags read from an element. */
  datatype Tags = Tags(name: Option<string>, contactPhone: Option<string>, phone: Option<string>)

  /** An element of the map service's answer: a node with its own coordinates, or another type with a centre. */
  datatype Element = Element(id: string, kind: string, lat: Option<real>, lon: Option<real>, center: Option<Center>, tags: Option<Tags>)

  /** A candidate hospital or clinic. */
  datatype Place = Place(id: string, name: string, lat: Option<real>, lon: Option<real>, distance: real, phone: Option<string>)

  /** An awaited step: its value, or the message of what it threw. */
  datatype Attempt<T> = Got(value: T) | Failed(message: string)

  const MaxSafeInteger: real := 9007199254740991.0
  const DefaultPlaceName := "Nearest hospital/clinic"
  const NoHospitals := "No hospitals found nearby. Please call local emergency services."
  const GeolocationUnsupported := "Geolocation not supported"
  const LocateFailed := "Failed to get location"
  const SendFailed := "Failed to send emergency report. Try calling the hospital directly."

  /** A coordinate that JavaScript reads as true: present and not 0. */
  predicate Given(x: Option<real>)
  {
    x.Some? && x.value != 0.0
  }

  /** A node's own coordinates; for any other element, its centre's. */
  function Coords(el: Element): (c: (Option<real>, Option<real>))
    ensures el.kind == "node" ==> c == (el.lat, el.lon)
    ensures el.kind != "node" && el.center.Some? ==> c == (el.center.value.lat, el.center.value.lon)
    ensures el.kind != "node" && el.center.None? ==> c == (None, None)
  {
    if el.kind == "node" then (el.lat, el.lon)
    else match el.center
      case Some(ctr) => (ctr.lat, ctr.lon)
      case None => (None, None)
  }

  /** The first of two texts that JavaScript reads as true, else the second as it is. */
  function FirstText(a: Option<string>, b: Option<string>): (r: Option<string>)
    ensures a.Some? && a.value != [] ==> r == a
    ensures !(a.Some? && a.value != []) ==> r == b
  {
    if a.Some? && a.value != [] then a else b
  }

  /**
   * One candidate: the element's coordinates, its distance from `here`
   * (or `MAX_SAFE_INTEGER` when a coordinate is absent or 0), its name or
   * the default name, and its `contact:phone` or else its `phone` tag.
   */
  function ToPlace(el: Element, here: Fix, haversine: Haversine): (p: Place)
    ensures p.id == el.id && (p.lat, p.lon) == Coords(el)
    ensures Given(p.lat) && Given(p.lon) ==> p.distance == haversine(here.lat, here.lon, p.lat.value, p.lon.value)
    ensures !(Given(p.lat) && Given(p.lon)) ==> p.distance == MaxSafeInteger
    ensures el.tags.Some? && el.tags.value.name.Some? && el.tags.value.name.value != [] ==> p.name == el.tags.value.name.value
    ensures !(el.tags.Some? && el.tags.value.name.Some? && el.tags.value.name.value != []) ==> p.name == DefaultPlaceName
    ensures p.name != []
    ensures el.tags.None? ==> p.phone.None?
    ensures el.tags.Some? ==> p.phone == FirstText(el.tags.value.contactPhone, el.tags.value.phone)
  {
    var (nlat, nlon) := Coords(el);
    var dist := if Given(nlat) && Given(nlon) then haversine(here.lat, here.lon, nlat.value, nlon.value) else MaxSafeInteger;
    var name := if el.tags.Some? && el.tags.value.name.Some? && el.tags.value.name.value != [] then el.tags.value.name.value
                else DefaultPlaceName;
    var phone := if el.tags.Some? then FirstText(el.tags.value.contactPhone, el.tags.value.phone) else None;
    Place(el.id, name, nlat, nlon, dist, phone)
  }

  /**
   * The candidates, in the answer's order. The `Number.isFinite` filter
   * keeps every one of them: each distance is a number, the haversine
   * distance or `MAX_SAFE_INTEGER`.
   */
  function Candidates(els: seq<Element>, here: Fix, haversine: Haversine): (r: seq<Place>)
    ensures |r| == |els|
    ensures forall i :: 0 <= i < |els| ==> r[i] == ToPlace(els[i], here, haversine)
  {
    if els == [] then [] else [ToPlace(els[0], here, haversine)] + Candidates(els[1..], here, haversine)
  }

  /** An element without usable coordinates stays a candidate, at the largest distance. */
  lemma UnlocatedElementKept(els: seq<Element>, here: Fix, haversine: Haversine, i: nat)
    requires i < |els|
    requires !(Given(Coords(els[i]).0) && Given(Coords(els[i]).1))
    ensures i < |Candidates(els, here, haversine)|
    ensures Candidates(els, here, haversine)[i].distance == MaxSafeInteger
    ensures Candidates(els, here, haversine)[i].id == els[i].id
  {
  }

  /**
   * The candidate a stable sort by ascending distance puts first: one of
   * least distance, and the earliest of those.
   */
  function Nearest(ps: seq<Place>): (k: nat)
    requires ps != []
    ensures k < |ps|
    ensures forall j :: 0 <= j < |ps| ==> ps[k].distance <= ps[j].distance
    ensures forall j :: 0 <= j < k ==> ps[j].distance > ps[k].distance
  {
    if |ps| == 1 then 0
    else
      var k := Nearest(ps[1..]) + 1;
      if ps[0].distance <= ps[k].distance then 0 else k
  }

  /** `(e as Error).message || 'Failed to get location'`. */
  function ErrorText(message: string): (t: string)
    ensures t != []
    ensures message != [] ==> t == message
  {
    if message != [] then message else LocateFailed
  }

  /** What a search leaves: the fix taken (if any), the error shown, and the nearest place. */
  datatype Search = Search(fix: Option<Fix>, error: Option<string>, nearest: Option<Place>)

  /**
   * `locateAndFindHospital`: without geolocation support, or when the fix
   * or the lookup throws, only an error; otherwise the nearest candidate,
   * or the no-hospitals error when the answer holds no element at all.
   */
  function Locate(supported: bool, fix: Attempt<Fix>, data: Attempt<Option<seq<Element>>>, haversine: Haversine): (r: Search)
    ensures r.fix == (if supported && fix.Got? then Some(fix.value) else None)
    ensures r.error.None? <==> r.nearest.Some?
    ensures !supported ==> r.error == Some(GeolocationUnsupported)
    ensures supported && fix.Failed? ==> r.error == Some(ErrorText(fix.message))
    ensures supported && fix.Got? && data.Failed? ==> r.error == Some(ErrorText(data.message))
    ensures supported && fix.Got? && data.Got? ==>
      && (data.value.GetOr([]) == [] <==> r.error == Some(NoHospitals))
      && (data.value.GetOr([]) != [] <==> r.nearest.Some?)
    ensures r.nearest.Some? ==>
      && supported && fix.Got? && data.Got?
      && var ps := Candidates(data.value.GetOr([]), fix.value, haversine);
      && r.nearest.value in ps
      && forall p :: p in ps ==> r.nearest.value.distance <= p.distance
  {
    if !supported then Search(None, Some(GeolocationUnsupported), None)
    else match fix
      case Failed(m) => Search(None, Some(ErrorText(m)), None)
      case Got(here) =>
        match data
        case Failed(m) => Search(Some(here), Some(ErrorText(m)), None)
        case Got(els) =>
          var ps := Candidates(els.GetOr([]), here, haversine);
          if |ps| == 0 then Search(Some(here), Some(NoHospitals), None)
          else Search(Some(here), None, Some(ps[Nearest(ps)]))
  }

  // ---------------------------------------------------------------------
  // The emergency report
  // ---------------------------------------------------------------------

  /** The signed-in user as the report names them. */
  datatype Person = Person(id: nat, fullName: string, email: string)

  /** The nearest hospital as the report names it; the distance in whole metres. */
  datatype HospitalNote = HospitalNote(name: string, lat: Option<real>, lon: Option<real>, distanceM: int)

  datatype Report = Report(kind: string, timestamp: string, user: Option<Person>, location: Fix,
                           nearestHospital: Option<HospitalNote>, client: string)

  /** The report posted to the backend. */
  function ReportOf(now: string, user: Option<Person>, here: Fix, nearest: Option<Place>): (r: Report)
    ensures r.kind == "medical_emergency" && r.client == "travelogy-frontend"
    ensures r.timestamp == now && r.user == user && r.location == here
    ensures r.nearestHospital.Some? <==> nearest.Some?
    ensures nearest.Some? ==>
      && r.nearestHospital.value.name == nearest.value.name
      && (r.nearestHospital.value.lat, r.nearestHospital.value.lon) == (nearest.value.lat, nearest.value.lon)
      && nearest.value.distance - 0.5 < r.nearestHospital.value.distanceM as real <= nearest.value.distance + 0.5
  {
    var note := if nearest.Some? then
        Some(HospitalNote(nearest.value.name, nearest.value.lat, nearest.value.lon, Round(nearest.value.distance)))
      else None;
    Report("medical_emergency", now, user, here, note, "travelogy-frontend")
  }

  /** The hospital line of the alert, when a nearest place is known. */
  function HospitalLine(nearest: Option<Place>, num: real -> string): string
  {
    if nearest.Some? then "Nearest hospital: " + nearest.value.name + " (~" + num(Round(nearest.value.distance) as real) + " m)\n"
    else ""
  }

  /** The user line of the alert, when someone is signed in. */
  function UserLine(user: Option<Person>): string
  {
    if user.Some? then "User: " + user.value.fullName + " (" + user.value.email + ")\n" else ""
  }

  /** The map link at the end of the alert, for coordinates written `lat` and `lon`. */
  function MapLine(lat: string, lon: string): string
  {
    "Map: https://www.openstreetmap.org/?mlat=" + lat + "&mlon=" + lon + "#map=18/" + lat + "/" + lon
  }

  /**
   * The text shared or mailed when the backend did not take the report.
   * `fixed6` is `toFixed(6)` and `num` is JavaScript's number-to-text.
   */
  function AlertText(here: Fix, nearest: Option<Place>, user: Option<Person>,
                     fixed6: real -> string, num: real -> string): string
  {
    "EMERGENCY: Medical assistance requested\n"
    + "Location: " + fixed6(here.lat) + ", " + fixed6(here.lon) + "\n"
    + HospitalLine(nearest, num) + UserLine(user) + MapLine(num(here.lat), num(here.lon))
  }

  const MailtoNoAddress := "mailto:"
  const EmergencySubject := "Medical Emergency"
  /** The subject as `encodeURIComponent` writes it. */
  const EncodedSubject := "Medical%20Emergency"

  lemma SubjectWords()
    ensures EmergencySubject == "Medical" + [' '] + "Emergency"
    ensures EncodedSubject == "Medical" + ['%', '2', '0'] + "Emergency"
    ensures forall i :: 0 <= i < |"Medical"| ==> Unreserved("Medical"[i])
    ensures forall i :: 0 <= i < |"Emergency"| ==> Unreserved("Emergency"[i])
  {
  }

  lemma SubjectEncoding()
    ensures Encode(EmergencySubject) == EncodedSubject
  {
    SubjectWords();
    EncodeTwoWords("Medical", "Emergency");
  }

  /** The draft opened when the device cannot share: no address, the emergency subject, the text as body. */
  function EmergencyMailto(text: string): string
  {
    MailtoNoAddress + ['?'] + (Param("subject", EncodedSubject) + ['&'] + Param("body", Encode(text)))
  }

  /** The draft carries the subject and the whole text, whatever the text holds. */
  lemma EmergencyMailtoReadsBack(text: string)
    ensures QueryParams(EmergencyMailto(text)) == [("subject", Some(EmergencySubject)), ("body", Some(text))]
  {
    assert '?' !in MailtoNoAddress by {
      assert forall i :: 0 <= i < |MailtoNoAddress| ==> MailtoNoAddress[i] != '?';
    }
    SubjectEncoding();
    assert EmergencyMailto(text) == MailtoLink(MailtoNoAddress, EmergencySubject, text);
    MailtoReadsBack(MailtoNoAddress, EmergencySubject, text);
  }

  /** How the report reached someone: the backend took it, the share sheet took the text or threw, or a mail draft opened. */
  datatype Delivery = Posted | Shared | ShareFailed | Drafted

  /**
   * What `handleSend` does after posting: nothing more when the backend
   * took the report; else the share sheet with the text when the device
   * has one, else the `mailto:` draft carrying the text.
   */
  function Deliver(delivered: bool, canShare: bool, shareOk: bool): (d: Delivery)
    ensures delivered <==> d.Posted?
    ensures !delivered && canShare ==> (d.Shared? <==> shareOk) && (d.ShareFailed? <==> !shareOk)
    ensures d.Drafted? <==> !delivered && !canShare
  {
    if delivered then Posted
    else if canShare then (if shareOk then Shared else ShareFailed)
    else Drafted
  }

  class Sos {
    var open: bool
    var loading: bool
    var error: Option<string>
    var position: Option<Fix>
    var nearest: Option<Place>
    var sending: bool
    var sent: bool
    /** Where the window was sent, once a `mailto:` draft was opened. */
    var location: Option<string>

    constructor ()
      ensures !open && !loading && error.None? && position.None? && nearest.None?
      ensures !sending && !sent && location.None?
    {
      open := false;
      loading := false;
      error := None;
      position := None;
      nearest := None;
      sending := false;
      sent := false;
      location := None;
    }

    /** `locateAndFindHospital`: the state takes what `Locate` finds; `sent` is reset. */
    method LocateAndFindHospital(supported: bool, fix: Attempt<Fix>, data: Attempt<Option<seq<Element>>>, haversine: Haversine)
      modifies this
      ensures var r := Locate(supported, fix, data, haversine);
        && error == r.error && nearest == r.nearest
        && position == (if r.fix.Some? then r.fix else old(position))
      ensures !loading && !sent
      ensures open == old(open) && sending == old(sending) && location == old(location)
    {
      error := None;
      nearest := None;
      sent := false;
      loading := true;
      var r := Locate(supported, fix, data, haversine);
      if r.fix.Some? {
        position := r.fix;
      }
      error := r.error;
      nearest := r.nearest;
      loading := false;
    }

    /** `handleOpen`: opens the dialog and starts the search. */
    method HandleOpen(supported: bool, fix: Attempt<Fix>, data: Attempt<Option<seq<Element>>>, haversine: Haversine)
      modifies this
      ensures open
      ensures var r := Locate(supported, fix, data, haversine);
        && error == r.error && nearest == r.nearest
        && position == (if r.fix.Some? then r.fix else old(position))
      ensures !loading && !sent && sending == old(sending) && location == old(location)
    {
      open := true;
      LocateAndFindHospital(supported, fix, data, haversine);
    }

    /** `handleClose`: closes the dialog and forgets the result; the position is kept. */
    method HandleClose()
      modifies this
      ensures !open && error.None? && nearest.None? && !sending && !sent
      ensures loading == old(loading) && position == old(position) && location == old(location)
    {
      open := false;
      error := None;
      nearest := None;
      sending := false;
      sent := false;
    }

    /**
     * `handleSend`: nothing without a position. Otherwise the report is
     * posted, and `Deliver` says what follows: `sent` becomes true on
     * every path except a share that throws, which sets the error instead.
     */
    method HandleSend(now: string, user: Option<Person>, delivered: bool, canShare: bool, shareOk: bool,
                      fixed6: real -> string, num: real -> string)
      returns (report: Option<Report>, shared: Option<string>)
      modifies this
      ensures open == old(open) && loading == old(loading) && position == old(position) && nearest == old(nearest)
      ensures position.None? ==>
        && report.None? && shared.None?
        && sending == old(sending) && sent == old(sent) && error == old(error) && location == old(location)
      ensures position.Some? ==>
        var d := Deliver(delivered, canShare, shareOk);
        var text := AlertText(position.value, nearest, user, fixed6, num);
        && report == Some(ReportOf(now, user, position.value, nearest))
        && !sending
        && shared == (if d.Shared? || d.ShareFailed? then Some(text) else None)
        && location == (if d.Drafted? then Some(EmergencyMailto(text)) else old(location))
        && error == (if d.ShareFailed? then Some(SendFailed) else None)
        && sent == (if d.ShareFailed? then old(sent) else true)
    {
      shared := None;
      if position.None? {
        return None, None;
      }
      sending := true;
      error := None;
      report := Some(ReportOf(now, user, position.value, nearest));
      var d := Deliver(delivered, canShare, shareOk);
      var text := AlertText(position.value, nearest, user, fixed6, num);
      shared := FollowUp(d, text);
      sending := false;
    }

    /** What follows the post: the share sheet, the mail draft, and the flags they leave. */
    method FollowUp(d: Delivery, text: string) returns (shared: Option<string>)
      modifies this
      ensures open == old(open) && loading == old(loading) && position == old(position)
      ensures nearest == old(nearest) && sending == old(sending)
      ensures shared == (if d.Shared? || d.ShareFailed? then Some(text) else None)
      ensures location == (if d.Drafted? then Some(EmergencyMailto(text)) else old(location))
      ensures error == (if d.ShareFailed? then Some(SendFailed) else old(error))
      ensures sent == (if d.ShareFailed? then old(sent) else true)
    {
      shared := None;
      if d.Shared? || d.ShareFailed? {
        shared := Some(text);
      } else if d.Drafted? {
        location := Some(EmergencyMailto(text));
      }
      if d.ShareFailed? {
        error := Some(SendFailed);
      } else {
        sent := true;
      }
    }
  }
}
