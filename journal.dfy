/**
 * The travel journal page: the entries derived from the user's trips (or
 * taken from the timeline endpoint), their newest-first order, saving a
 * new entry, the CSV export and the photo count. Text fields follow the
 * page's truthiness tests, so an absent text is the empty string.
 */
module Journal {
  import opened Common

  /** A photo attached to an entry. */
  datatype Photo = Photo(url: string, caption: string)

  /** A diary entry as the trips endpoint returns it inside a trip. */
  datatype Diary = Diary(id: string, note: string, photos: Option<seq<Photo>>, createdAt: string)

  /** A trip as the trips endpoint returns it. */
  datatype Trip = Trip(
    id: nat, diaries: Option<seq<Diary>>, diaryEntries: Option<seq<Diary>>,
    transportMode: string, distanceKm: Option<real>, startTime: string,
    locationName: string, destination: string, notes: string)

  /** An entry shown on the page; `photos` is None when the field is not an array. */
  datatype Entry = Entry(
    id: string, note: string, photos: Option<seq<Photo>>, createdAt: string,
    tripId: Option<nat>, transportMode: string, distanceKm: Option<real>,
    startTime: string, locationName: string)

  // ---------------------------------------------------------------------
  // Flattening
  // ---------------------------------------------------------------------

  /** A trip's diary list: `diaries`, else `diary_entries`, else none (an empty list counts as given). */
  function DiariesOf(t: Trip): seq<Diary>
  {
    if t.diaries.Some? then t.diaries.value
    else if t.diaryEntries.Some? then t.diaryEntries.value
    else []
  }

  function LocationOf(t: Trip): string
  {
    if t.locationName != [] then t.locationName else t.destination
  }

  /** The entry a diary becomes: the diary's own fields with the trip's context. */
  function DiaryEntry(t: Trip, d: Diary): (e: Entry)
    ensures e.id == d.id && e.note == d.note && e.photos == d.photos
    ensures e.tripId == Some(t.id) && e.transportMode == t.transportMode && e.distanceKm == t.distanceKm
    ensures e.startTime == t.startTime && e.locationName == LocationOf(t)
    ensures e.createdAt == (if d.createdAt != [] then d.createdAt else t.startTime)
  {
    Entry(d.id, d.note, d.photos, if d.createdAt != [] then d.createdAt else t.startTime,
          Some(t.id), t.transportMode, t.distanceKm, t.startTime, LocationOf(t))
  }

  /** Whether a trip without diaries still gets an entry: it has notes or a transport mode. */
  predicate NeedsSynthetic(t: Trip)
  {
    DiariesOf(t) == [] && (t.notes != [] || t.transportMode != [])
  }

  /**
   * The entry made for a trip without diaries: its notes, else a line
   * naming the mode and the distance (`fixed1` renders a number with one
   * decimal), and no photos.
   */
  function SyntheticEntry(t: Trip, fixed1: real -> string): (e: Entry)
    ensures e.id == "trip-" + NatToString(t.id) && e.photos == Some([])
    ensures e.tripId == Some(t.id) && e.createdAt == t.startTime
    ensures t.notes != [] ==> e.note == t.notes
  {
    var note := if t.notes != [] then t.notes
                else t.transportMode + " trip of " + fixed1(t.distanceKm.GetOr(0.0)) + " km";
    Entry("trip-" + NatToString(t.id), note, Some([]), t.startTime, Some(t.id), t.transportMode, t.distanceKm,
          t.startTime, LocationOf(t))
  }

  /** The entries a trip's diaries become, in the diaries' order. */
  function FromDiaries(t: Trip): seq<Entry>
  {
    seq(|DiariesOf(t)|, k requires 0 <= k < |DiariesOf(t)| => DiaryEntry(t, DiariesOf(t)[k]))
  }

  /** Specification of the entries one trip contributes. */
  function TripEntries(t: Trip, fixed1: real -> string): seq<Entry>
  {
    if NeedsSynthetic(t) then [SyntheticEntry(t, fixed1)] else FromDiaries(t)
  }

  /**
   * A trip contributes one entry per diary, carrying the trip's context,
   * or, without diaries but with notes or a mode, the one synthetic entry.
   */
  lemma TripEntriesShape(t: Trip, fixed1: real -> string)
    ensures var r := TripEntries(t, fixed1);
      |r| == EntryCount(t) &&
      (forall k :: 0 <= k < |DiariesOf(t)| ==> r[k] == DiaryEntry(t, DiariesOf(t)[k])) &&
      (NeedsSynthetic(t) ==> r == [SyntheticEntry(t, fixed1)]) &&
      (!NeedsSynthetic(t) && DiariesOf(t) == [] ==> r == []) &&
      (forall e :: e in r ==> e.tripId == Some(t.id))
  {
  }

  /** How many entries a trip contributes: one per diary, else one if it has notes or a mode. */
  function EntryCount(t: Trip): int
  {
    if |DiariesOf(t)| > 0 then |DiariesOf(t)| else if NeedsSynthetic(t) then 1 else 0
  }

  /** Specification of the flattening: the trips' entries, trip after trip. */
  function Flattened(trips: seq<Trip>, fixed1: real -> string): seq<Entry>
  {
    if trips == [] then [] else Flattened(trips[..|trips| - 1], fixed1) + TripEntries(trips[|trips| - 1], fixed1)
  }

  /** The inner loop of the loader: one entry per diary of the trip, in order. */
  method DiaryEntries(t: Trip) returns (es: seq<Entry>)
    ensures es == FromDiaries(t)
  {
    var ds := DiariesOf(t);
    es := [];
    var j := 0;
    while j < |ds|
      invariant 0 <= j <= |ds|
      invariant es == FromDiaries(t)[..j]
    {
      es := es + [DiaryEntry(t, ds[j])];
      j := j + 1;
    }
    assert FromDiaries(t)[..j] == FromDiaries(t);
  }

  lemma FlattenedStep(trips: seq<Trip>, i: nat, fixed1: real -> string)
    requires i < |trips|
    ensures Flattened(trips[..i + 1], fixed1) == Flattened(trips[..i], fixed1) + TripEntries(trips[i], fixed1)
  {
    assert trips[..i + 1][..i] == trips[..i];
  }

  /** The entry-collecting loop of the page's loader. */
  method Flatten(trips: seq<Trip>, fixed1: real -> string) returns (all: seq<Entry>)
    ensures all == Flattened(trips, fixed1)
  {
    all := [];
    var i := 0;
    while i < |trips|
      invariant 0 <= i <= |trips|
      invariant all == Flattened(trips[..i], fixed1)
    {
      var t := trips[i];
      var es := DiaryEntries(t);
      if |es| == 0 && (t.notes != [] || t.transportMode != []) {
        es := [SyntheticEntry(t, fixed1)];
      }
      assert es == TripEntries(t, fixed1);
      FlattenedStep(trips, i, fixed1);
      all := all + es;
      i := i + 1;
    }
    assert trips[..i] == trips;
  }

  /** The flattening has one entry per diary, plus one per trip that needs a synthetic entry. */
  lemma {:induction false} FlattenedLength(trips: seq<Trip>, fixed1: real -> string)
    ensures |Flattened(trips, fixed1)| == SumInts(trips, EntryCount)
  {
    if trips != [] {
      var init, last := trips[..|trips| - 1], trips[|trips| - 1];
      FlattenedLength(init, fixed1);
      TripEntriesShape(last, fixed1);
      assert Flattened(trips, fixed1) == Flattened(init, fixed1) + TripEntries(last, fixed1);
      assert SumInts(trips, EntryCount) == SumInts(init, EntryCount) + EntryCount(last);
    }
  }

  /** Every flattened entry comes from one of the trips. */
  lemma {:induction false} FlattenedFromTrips(trips: seq<Trip>, fixed1: real -> string)
    ensures forall e :: e in Flattened(trips, fixed1) ==> exists t :: t in trips && e.tripId == Some(t.id)
  {
    if trips != [] {
      var init := trips[..|trips| - 1];
      var last := trips[|trips| - 1];
      FlattenedFromTrips(init, fixed1);
      forall e | e in Flattened(trips, fixed1)
        ensures exists t :: t in trips && e.tripId == Some(t.id)
      {
        if e in Flattened(init, fixed1) {
          var t :| t in init && e.tripId == Some(t.id);
          assert t in trips;
        } else {
          assert e in TripEntries(last, fixed1);
          TripEntriesShape(last, fixed1);
          assert last in trips;
        }
      }
    }
  }

  // ---------------------------------------------------------------------
  // Ordering and statistics
  // ---------------------------------------------------------------------

  /** The time an entry sorts by: its creation time parsed by `parse`, or 0 without one. */
  function SortKey(e: Entry, parse: string -> int): int
  {
    if e.createdAt != [] then parse(e.createdAt) else 0
  }

  /** `sorted`: newest first, a permutation of the entries. */
  function Sorted(entries: seq<Entry>, parse: string -> int): (r: seq<Entry>)
    ensures multiset(r) == multiset(entries)
    ensures forall i, j :: 0 <= i < j < |r| ==> SortKey(r[i], parse) >= SortKey(r[j], parse)
  {
    var r := SortDesc(entries, e => SortKey(e, parse));
    assert SortedDesc(r, e => SortKey(e, parse));
    r
  }

  /** The number of photos of an entry; 0 when its photos are not a list. */
  function PhotoCount(e: Entry): int
  {
    if e.photos.Some? then |e.photos.value| else 0
  }

  /** The photos statistic, summed over the sorted entries. */
  function PhotosCaptured(entries: seq<Entry>, parse: string -> int): (r: int)
    ensures r == SumInts(entries, PhotoCount)
  {
    var sorted := Sorted(entries, parse);
    SumIntsPermutation(sorted, entries, PhotoCount);
    SumInts(sorted, PhotoCount)
  }

  // ---------------------------------------------------------------------
  // CSV export
  // ---------------------------------------------------------------------

  /** A field's text with every quote doubled. */
  function Escape(s: string): (r: string)
    ensures |r| >= |s|
  {
    if s == [] then [] else (if s[0] == '"' then "\"\"" else [s[0]]) + Escape(s[1..])
  }

  /** A field wrapped in quotes, inner quotes doubled (section 2 of RFC 4180). */
  function Quote(s: string): string
  {
    "\"" + Escape(s) + "\""
  }

  /** The fields of a record, each quoted, separated by commas. */
  function RecordText(fields: seq<string>): string
  {
    if fields == [] then []
    else if |fields| == 1 then Quote(fields[0])
    else Quote(fields[0]) + "," + RecordText(fields[1..])
  }

  /** The records, one per line. */
  function RecordsText(rows: seq<seq<string>>): string
  {
    if rows == [] then []
    else if |rows| == 1 then RecordText(rows[0])
    else RecordText(rows[0]) + "\n" + RecordsText(rows[1..])
  }

  const Header := ["created_at", "trip_id", "transport_mode", "distance_km", "location", "note", "photos"]

  /** The header line: the column names, unquoted. */
  function HeaderLine(): string
  {
    Join(Header, ',')
  }

  /**
   * The fields of an entry's row: missing text is empty, a missing or zero
   * distance is 0 (`numText` renders a number as `String` does), the
   * note's line breaks become spaces, and the photos are counted.
   */
  function CsvFields(e: Entry, numText: real -> string): (r: seq<string>)
    ensures |r| == |Header|
    ensures '\n' !in r[5]
    ensures r[6] == NatToString(PhotoCount(e))
  {
    var tripId := if e.tripId.Some? && e.tripId.value != 0 then NatToString(e.tripId.value) else "";
    var distance := if e.distanceKm.Some? then e.distanceKm.value else 0.0;
    var note := ReplaceChar(e.note, '\n', ' ');
    [e.createdAt, tripId, e.transportMode, numText(distance), e.locationName, note, NatToString(PhotoCount(e))]
  }

  /** The rows of the export: the fields of each sorted entry. */
  function CsvRows(entries: seq<Entry>, parse: string -> int, numText: real -> string): (rows: seq<seq<string>>)
    ensures |rows| == |entries|
    ensures forall i :: 0 <= i < |rows| ==> |rows[i]| == |Header|
  {
    var sorted := Sorted(entries, parse);
    assert |multiset(sorted)| == |multiset(entries)|;
    seq(|sorted|, i requires 0 <= i < |sorted| => CsvFields(sorted[i], numText))
  }

  /** The exported file: the header line and the row lines, joined by line breaks. */
  function Csv(entries: seq<Entry>, parse: string -> int, numText: real -> string): (r: string)
    ensures StartsWith(r, HeaderLine())
  {
    var rows := CsvRows(entries, parse, numText);
    if rows == [] then HeaderLine() else HeaderLine() + "\n" + RecordsText(rows)
  }

  // A reader for the quoted records, to state what the writer produces.

  /**
   * Reads a quoted field's content, the opening quote already consumed:
   * a doubled quote stands for one quote, a single quote ends the field.
   * Gives the content and the text after the closing quote.
   */
  function ReadQuoted(s: string): (r: Option<(string, string)>)
    ensures r.Some? ==> |r.value.1| < |s|
  {
    if s == [] then None
    else if s[0] == '"' then
      if |s| > 1 && s[1] == '"' then
        match ReadQuoted(s[2..])
        case None => None
        case Some((content, rest)) => Some(("\"" + content, rest))
      else Some(([], s[1..]))
    else
      match ReadQuoted(s[1..])
      case None => None
      case Some((content, rest)) => Some(([s[0]] + content, rest))
  }

  /** Reads records of quoted fields: a comma continues the record, a line break starts the next one. */
  function ReadRecords(s: string): Option<seq<seq<string>>>
    decreases |s|, 1
  {
    if s == [] || s[0] != '"' then None
    else
      var q := ReadQuoted(s[1..]);
      if q.None? then None else AfterField(q.value.0, q.value.1)
  }

  /** What follows a field: the end, a comma and the rest of the record, or a line break and the next records. */
  function AfterField(field: string, rest: string): Option<seq<seq<string>>>
    decreases |rest|, 0
  {
    if rest == [] then Some([[field]])
    else if rest[0] == ',' then
      var r := ReadRecords(rest[1..]);
      if r.None? || r.value == [] then None else Some([[field] + r.value[0]] + r.value[1..])
    else if rest[0] == '\n' then
      var r := ReadRecords(rest[1..]);
      if r.None? then None else Some([[field]] + r.value)
    else None
  }

  /** Reading an escaped field back stops at the closing quote and gives the field. */
  lemma {:induction false} ReadEscaped(x: string, rest: string)
    requires rest == [] || rest[0] != '"'
    ensures ReadQuoted(Escape(x) + "\"" + rest) == Some((x, rest))
  {
    if x != [] {
      ReadEscaped(x[1..], rest);
      var tail := Escape(x[1..]) + "\"" + rest;
      if x[0] == '"' {
        assert Escape(x) + "\"" + rest == "\"\"" + tail;
        assert ("\"\"" + tail)[2..] == tail;
        assert "\"" + x[1..] == x;
      } else {
        assert Escape(x) + "\"" + rest == [x[0]] + tail;
        assert ([x[0]] + tail)[1..] == tail;
        assert [x[0]] + x[1..] == x;
      }
    } else {
      assert Escape(x) + "\"" + rest == "\"" + rest;
    }
  }

  /** A quoted field is read back, and reading goes on after it. */
  lemma ReadField(f: string, after: string)
    requires after == [] || after[0] != '"'
    ensures ReadRecords(Quote(f) + after) == AfterField(f, after)
  {
    var s := Quote(f) + after;
    assert s[1..] == Escape(f) + "\"" + after;
    ReadEscaped(f, after);
  }

  /** A last field followed by the end or by a line break and more records. */
  lemma ReadLastField(f: string, tail: string, more: seq<seq<string>>)
    requires (tail == [] && more == []) || (|tail| > 0 && tail[0] == '\n' && ReadRecords(tail[1..]) == Some(more))
    ensures ReadRecords(Quote(f) + tail) == Some([[f]] + more)
  {
    ReadField(f, tail);
    if tail == [] {
      assert [[f]] + more == [[f]];
    } else {
      assert tail[0] != ',';
      assert AfterField(f, tail) == Some([[f]] + more);
    }
  }

  /** A field followed by a comma and the rest of its record. */
  lemma ReadNextField(f: string, restText: string, fields: seq<string>, more: seq<seq<string>>)
    requires ReadRecords(restText) == Some([fields] + more)
    ensures ReadRecords(Quote(f) + "," + restText) == Some([[f] + fields] + more)
  {
    var after := "," + restText;
    assert Quote(f) + "," + restText == Quote(f) + after;
    ReadField(f, after);
    assert after[1..] == restText;
  }

  /** A record of one field reads back as that record. */
  lemma ReadRecordOne(fields: seq<string>, tail: string, more: seq<seq<string>>)
    requires |fields| == 1
    requires (tail == [] && more == []) || (|tail| > 0 && tail[0] == '\n' && ReadRecords(tail[1..]) == Some(more))
    ensures ReadRecords(RecordText(fields) + tail) == Some([fields] + more)
  {
    assert RecordText(fields) + tail == Quote(fields[0]) + tail;
    ReadLastField(fields[0], tail, more);
    assert fields == [fields[0]];
  }

  /** A record of several fields reads back when the record without its first field does. */
  lemma ReadRecordStep(fields: seq<string>, tail: string, more: seq<seq<string>>)
    requires |fields| > 1
    requires ReadRecords(RecordText(fields[1..]) + tail) == Some([fields[1..]] + more)
    ensures ReadRecords(RecordText(fields) + tail) == Some([fields] + more)
  {
    var restText := RecordText(fields[1..]) + tail;
    assert RecordText(fields) + tail == Quote(fields[0]) + "," + restText;
    ReadNextField(fields[0], restText, fields[1..], more);
    assert [fields[0]] + fields[1..] == fields;
  }

  /** A record followed by the end or by a line break and more records reads back as that record first. */
  lemma {:induction false} ReadRecord(fields: seq<string>, tail: string, more: seq<seq<string>>)
    requires fields != []
    requires (tail == [] && more == []) || (|tail| > 0 && tail[0] == '\n' && ReadRecords(tail[1..]) == Some(more))
    ensures ReadRecords(RecordText(fields) + tail) == Some([fields] + more)
    decreases |fields|
  {
    if |fields| == 1 {
      ReadRecordOne(fields, tail, more);
    } else {
      ReadRecord(fields[1..], tail, more);
      ReadRecordStep(fields, tail, more);
    }
  }

  /** Several records read back when all but the first do. */
  lemma RecordsStep(rows: seq<seq<string>>)
    requires |rows| > 1 && rows[0] != []
    requires ReadRecords(RecordsText(rows[1..])) == Some(rows[1..])
    ensures ReadRecords(RecordsText(rows)) == Some(rows)
  {
    var tail := "\n" + RecordsText(rows[1..]);
    assert RecordsText(rows) == RecordText(rows[0]) + tail;
    assert tail[1..] == RecordsText(rows[1..]);
    ReadRecord(rows[0], tail, rows[1..]);
    assert [rows[0]] + rows[1..] == rows;
  }

  /** The records written one per line read back as the same records. */
  lemma {:induction false} RecordsRoundTrip(rows: seq<seq<string>>)
    requires rows != []
    requires forall i :: 0 <= i < |rows| ==> rows[i] != []
    ensures ReadRecords(RecordsText(rows)) == Some(rows)
  {
    if |rows| == 1 {
      assert RecordsText(rows) == RecordText(rows[0]) + [];
      ReadRecord(rows[0], [], []);
      assert [rows[0]] + [] == rows;
    } else {
      RecordsRoundTrip(rows[1..]);
      RecordsStep(rows);
    }
  }

  /**
   * The export is the header line and, when there are entries, a line
   * break and the quoted rows, which read back as the sorted entries'
   * fields whatever the fields contain: one record per entry.
   */
  lemma CsvReadsBack(entries: seq<Entry>, parse: string -> int, numText: real -> string)
    ensures var rows := CsvRows(entries, parse, numText);
      var csv := Csv(entries, parse, numText);
      (entries == [] ==> csv == HeaderLine()) &&
      (entries != [] ==> csv == HeaderLine() + "\n" + RecordsText(rows) && ReadRecords(RecordsText(rows)) == Some(rows))
  {
    var rows := CsvRows(entries, parse, numText);
    if entries != [] {
      RecordsRoundTrip(rows);
    }
  }

  // ---------------------------------------------------------------------
  // The page
  // ---------------------------------------------------------------------

  /** A photo picked for a new entry, with the location read from its metadata. */
  datatype PhotoFile = PhotoFile(preview: string, caption: string, location: Option<(real, real)>)

  /** The location of the first picked photo that has one. */
  function FirstLocation(photos: seq<PhotoFile>): (r: Option<(real, real)>)
    ensures r.Some? <==> exists i :: 0 <= i < |photos| && photos[i].location.Some?
    ensures r.Some? ==> exists i :: 0 <= i < |photos| && photos[i].location == r && forall j :: 0 <= j < i ==> photos[j].location.None?
  {
    if photos == [] then None
    else if photos[0].location.Some? then photos[0].location
    else
      var r := FirstLocation(photos[1..]);
      assert forall i :: 1 <= i < |photos| ==> photos[i] == photos[1..][i - 1];
      r
  }

  /** Nothing to save: the note is only whitespace and no photo is picked. */
  predicate Blank(note: string, picked: seq<PhotoFile>)
  {
    Trim(note) == [] && picked == []
  }

  const NothingToSave := "Please add a note or photos to save your journal entry."
  const LoadFailed := "Failed to load journal entries. You can still use the photo upload feature!"

  class JournalPage {
    var entries: seq<Entry>
    var trips: seq<Trip>
    var error: Option<string>
    var loading: bool
    var journalNote: string
    var newPhotos: seq<PhotoFile>
    var showPhotoUpload: bool

    constructor()
      ensures entries == [] && trips == [] && error.None? && loading
      ensures journalNote == [] && newPhotos == [] && !showPhotoUpload
    {
      entries := [];
      trips := [];
      error := None;
      loading := true;
      journalNote := [];
      newPhotos := [];
      showPhotoUpload := false;
    }

    /**
     * The loader: the trips response's list (or none), then the timeline's
     * list if it gives one, else the entries flattened from the trips. A
     * failed trips request leaves both lists empty with an error.
     */
    method Load(tripsRes: Fetched<Trip>, timeline: Fetched<Entry>, fixed1: real -> string)
      modifies this
      ensures !loading
      ensures tripsRes.Threw? ==> entries == [] && trips == [] && error == Some(LoadFailed)
      ensures !tripsRes.Threw? ==> trips == ListOf(tripsRes).GetOr([]) && error == old(error)
      ensures !tripsRes.Threw? && ListOf(timeline).Some? ==> entries == ListOf(timeline).value
      ensures !tripsRes.Threw? && ListOf(timeline).None? ==> entries == Flattened(trips, fixed1)
      ensures journalNote == old(journalNote) && newPhotos == old(newPhotos) && showPhotoUpload == old(showPhotoUpload)
    {
      loading := true;
      if tripsRes.Threw? {
        error := Some(LoadFailed);
        entries := [];
        trips := [];
        loading := false;
        return;
      }
      var list := ListOf(tripsRes).GetOr([]);
      trips := list;
      var tl := ListOf(timeline);
      if tl.Some? {
        entries := tl.value;
        loading := false;
        return;
      }
      var all := Flatten(list, fixed1);
      entries := all;
      loading := false;
    }

    /**
     * `saveJournalEntry`: a blank note without photos only sets the error;
     * otherwise the new entry goes in front and the form is reset.
     */
    method SaveJournalEntry(nowMs: nat, nowIso: string, fixed4: real -> string)
      modifies this
      ensures Blank(old(journalNote), old(newPhotos)) ==>
        error == Some(NothingToSave) && entries == old(entries) &&
        journalNote == old(journalNote) && newPhotos == old(newPhotos) && showPhotoUpload == old(showPhotoUpload)
      ensures !Blank(old(journalNote), old(newPhotos)) ==>
        entries == [NewEntry(old(journalNote), old(newPhotos), nowMs, nowIso, fixed4)] + old(entries) &&
        error.None? && journalNote == [] && newPhotos == [] && !showPhotoUpload
      ensures trips == old(trips) && loading == old(loading)
    {
      var note, picked := journalNote, newPhotos;
      if Blank(note, picked) {
        error := Some(NothingToSave);
        return;
      }
      var entry := NewEntry(note, picked, nowMs, nowIso, fixed4);
      entries, error := [entry] + entries, None;
      journalNote, newPhotos, showPhotoUpload := [], [], false;
    }
  }

  /** The picked photos as attached to an entry: preview and caption, in order. */
  function Attached(picked: seq<PhotoFile>): (r: seq<Photo>)
    ensures |r| == |picked|
    ensures forall i :: 0 <= i < |picked| ==> r[i].url == picked[i].preview && r[i].caption == picked[i].caption
  {
    seq(|picked|, i requires 0 <= i < |picked| => Photo(picked[i].preview, picked[i].caption))
  }

  /** The location text of a new entry: a pin and the coordinates (`fixed4` renders four decimals), or none. */
  function PlaceOf(picked: seq<PhotoFile>, fixed4: real -> string): (r: string)
    ensures r != [] <==> FirstLocation(picked).Some?
  {
    var loc := FirstLocation(picked);
    if loc.Some? then "\U{1F4CD} " + fixed4(loc.value.0) + ", " + fixed4(loc.value.1) else ""
  }

  /**
   * The entry saved from the form: the note trimmed, the picked photos
   * attached, no trip, and the location of the first photo that has one.
   */
  function NewEntry(note: string, picked: seq<PhotoFile>, nowMs: nat, nowIso: string, fixed4: real -> string): (e: Entry)
    ensures e.note == Trim(note) && e.createdAt == nowIso && e.tripId.None? && e.distanceKm.None?
    ensures e.photos == Some(Attached(picked)) && e.locationName == PlaceOf(picked, fixed4)
  {
    Entry("journal-" + NatToString(nowMs), Trim(note), Some(Attached(picked)), nowIso, None, "", None, "", PlaceOf(picked, fixed4))
  }
}
