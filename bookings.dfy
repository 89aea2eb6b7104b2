/**
 * The bookings API: the hotel and train booking records built from the
 * posted body, and the listing of the requester's own reservations from
 * the reservations log, one JSON record per line.
 */
module Bookings {
  import opened Common

  /** A posted JSON object; a key mapped to None holds `null`. */
  type Body = map<string, Option<JVal>>

  /** `dict.get(key)`: None for a missing key and for `null` alike. */
  function Get(body: Body, key: string): (r: Option<JVal>)
    ensures key !in body ==> r.None?
    ensures key in body ==> r == body[key]
  {
    if key in body then body[key] else None
  }

  /** A booking record as the views build it. */
  datatype Booking = Booking(id: string, kind: string, userId: nat, name: JVal, provider: Option<JVal>, date: string, data: Body)

  /** A text value; none of the texts used here reads as a number. */
  function Text(s: string): JVal
  {
    JText(s, None)
  }

  /** The name: the first truthy of the two keys, else the fallback text. */
  function BookingName(body: Body, nameKey: string, idKey: string, fallback: string): (r: JVal)
    ensures Truthy(Get(body, nameKey)) ==> r == Get(body, nameKey).value
    ensures !Truthy(Get(body, nameKey)) && Truthy(Get(body, idKey)) ==> r == Get(body, idKey).value
    ensures !Truthy(Get(body, nameKey)) && !Truthy(Get(body, idKey)) ==> r == Text(fallback)
    ensures Truthy(Some(r)) <==> fallback != [] || Truthy(Get(body, nameKey)) || Truthy(Get(body, idKey))
  {
    Or(Or(Get(body, nameKey), Get(body, idKey)), Some(Text(fallback))).value
  }

  /** `request.data.get('provider', 'backend')`: the default applies to a missing key only, not to `null`. */
  function Provider(body: Body): (r: Option<JVal>)
    ensures "provider" !in body ==> r == Some(Text("backend"))
    ensures "provider" in body ==> r == body["provider"]
  {
    if "provider" in body then body["provider"] else Some(Text("backend"))
  }

  /** `hotels_book`: a `hotel` record for the requester under a fresh `uuid`, stamped `now`, holding the whole body. */
  function HotelsBook(body: Body, uuid: string, userId: nat, now: string): (b: Booking)
    ensures b.id == uuid && b.kind == "hotel" && b.userId == userId && b.date == now && b.data == body
    ensures Truthy(Get(body, "hotel_name")) ==> b.name == body["hotel_name"].value
    ensures !Truthy(Get(body, "hotel_name")) && Truthy(Get(body, "hotel_id")) ==> b.name == body["hotel_id"].value
    ensures !Truthy(Get(body, "hotel_name")) && !Truthy(Get(body, "hotel_id")) ==> b.name == Text("Hotel")
    ensures Truthy(Some(b.name))
    ensures b.provider == Provider(body)
  {
    Booking(uuid, "hotel", userId, BookingName(body, "hotel_name", "hotel_id", "Hotel"), Provider(body), now, body)
  }

  /** `trains_book`: the same, as a `train` record named by `train_name`, `train_id` or `Train`. */
  function TrainsBook(body: Body, uuid: string, userId: nat, now: string): (b: Booking)
    ensures b.id == uuid && b.kind == "train" && b.userId == userId && b.date == now && b.data == body
    ensures Truthy(Get(body, "train_name")) ==> b.name == body["train_name"].value
    ensures !Truthy(Get(body, "train_name")) && Truthy(Get(body, "train_id")) ==> b.name == body["train_id"].value
    ensures !Truthy(Get(body, "train_name")) && !Truthy(Get(body, "train_id")) ==> b.name == Text("Train")
    ensures Truthy(Some(b.name))
    ensures b.provider == Provider(body)
  {
    Booking(uuid, "train", userId, BookingName(body, "train_name", "train_id", "Train"), Provider(body), now, body)
  }

  // ---------------------------------------------------------------------
  // Reservations
  // ---------------------------------------------------------------------

  /**
   * A line of the log as `json.loads` and `.get` see it: not JSON, JSON
   * that is not an object (`.get` raises), or an object with its
   * `user_id` value and the record itself.
   */
  datatype Line<R> = Malformed | NotObject | Object(userId: Option<JVal>, record: R)

  /** Python's `value == request.user.id`: numbers compare by value and `True`/`False` equal 1/0; text and null never match. */
  predicate SameId(v: Option<JVal>, id: nat)
  {
    match v
    case Some(JNum(n)) => n == id as real
    case Some(JBool(b)) => (if b then 1 else 0) == id
    case _ => false
  }

  /** The records of the user's lines, in file order; every other line is passed over. */
  function Mine<R>(lines: seq<Line<R>>, id: nat): seq<R>
  {
    if lines == [] then []
    else
      var last := lines[|lines| - 1];
      Mine(lines[..|lines| - 1], id) + (if last.Object? && SameId(last.userId, id) then [last.record] else [])
  }

  /**
   * `reservations`: walks the log (an absent file is None) and collects
   * the records whose `user_id` is the requester's.
   */
  method Reservations<R>(file: Option<seq<Line<R>>>, id: nat) returns (results: seq<R>)
    ensures results == Mine(file.GetOr([]), id)
    ensures file.None? ==> results == []
  {
    results := [];
    if file.None? {
      return;
    }
    var lines := file.value;
    var i := 0;
    while i < |lines|
      invariant 0 <= i <= |lines|
      invariant results == Mine(lines[..i], id)
    {
      assert lines[..i + 1][..i] == lines[..i];
      if lines[i].Object? && SameId(lines[i].userId, id) {
        results := results + [lines[i].record];
      }
      i := i + 1;
    }
    assert lines[..|lines|] == lines;
  }

  /** A record is listed exactly when some object line holds it under the requester's id. */
  lemma {:induction false} MineMembers<R>(lines: seq<Line<R>>, id: nat, r: R)
    ensures r in Mine(lines, id) <==>
      exists i :: 0 <= i < |lines| && lines[i].Object? && lines[i].record == r && SameId(lines[i].userId, id)
  {
    if lines != [] {
      var n := |lines| - 1;
      MineMembers(lines[..n], id, r);
      if exists i :: 0 <= i < |lines| && lines[i].Object? && lines[i].record == r && SameId(lines[i].userId, id) {
        var i :| 0 <= i < |lines| && lines[i].Object? && lines[i].record == r && SameId(lines[i].userId, id);
        if i < n {
          assert lines[..n][i] == lines[i];
        }
      }
    }
  }

  /** The listing of a log is the listings of its two parts in order. */
  lemma {:induction false} MineConcat<R>(a: seq<Line<R>>, b: seq<Line<R>>, id: nat)
    ensures Mine(a + b, id) == Mine(a, id) + Mine(b, id)
  {
    if b == [] {
      assert a + b == a;
    } else {
      assert (a + b)[..|a + b| - 1] == a + b[..|b| - 1];
      MineConcat(a, b[..|b| - 1], id);
    }
  }

  /** The line the booking views append for a booking: its `user_id` is the requester's id. */
  function Logged(b: Booking): Line<Booking>
  {
    Object(Some(JNum(b.userId as real)), b)
  }

  /**
   * A booking appended to the log is listed last for the user who made
   * it and for no one else.
   */
  lemma BookingListedForItsOwner(lines: seq<Line<Booking>>, b: Booking, id: nat)
    ensures id == b.userId ==> Mine(lines + [Logged(b)], id) == Mine(lines, id) + [b]
    ensures id != b.userId ==> Mine(lines + [Logged(b)], id) == Mine(lines, id)
  {
    assert (lines + [Logged(b)])[..|lines|] == lines;
  }
}
