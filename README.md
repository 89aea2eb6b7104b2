# Travelogy core, modelled in Dafny

Travelogy is a travel-journal application. A React frontend records trips
from the browser's GPS, keeps a journal and a shopping cart, and offers an
emergency button. A Django backend stores trips and diaries, detects the
transport mode and the purpose of a trip, awards gamification points, and
authenticates users through Firebase or its own accounts.

This project models the deterministic bookkeeping under that application and
proves what it promises. I/O, the database, the clock, randomness and
floating-point geometry become parameters or plain values. One module
models each core source file:

| module | file | models |
|---|---|---|
| `Common` | (shared) | options, sums, counting dictionaries, the first most frequent key, descending sort, rounding, clamping, text helpers |
| `Movement` | `backend/apps/trips/ml_services/mode_detector.py` | per-step speeds, stops, direction changes folded into [0, 180], and the stop-based segmentation loop both detectors share |
| `ModeDetector` | `backend/apps/trips/ml_services/mode_detector.py` | `analyze_waypoints` and `detect_trip_segments` |
| `AdvancedModeDetector` | `backend/apps/trips/ml_services/advanced_mode_detector.py` | weather encoding, the feature rules of `preprocess_data`, `analyze_waypoints`, `detect_trip_segments` and the training guard |
| `PurposePredictor` | `backend/apps/trips/ml_services/purpose_predictor.py` | the time, location, mode and history scores, the prediction and its confidence clamp, and location clustering |
| `TripModels` | `backend/apps/trips/models.py` | trip duration, completion, carbon footprint and chain totals |
| `TripSerializers` | `backend/apps/trips/serializers.py` | trip creation, prediction input, diaries read back from annotations, updates and completion checks |
| `TripViews` | `backend/apps/trips/views.py` | starting and completing trips, path-point parsing, statistics and diary ingestion, over an in-memory trip store |
| `TripTracking` | `frontend/src/pages/TripsPage.tsx` | the live tracking session, the nearby-refetch rule, diary saving, and the GeoJSON (RFC 7946) and GPX 1.1 exports |
| `Gamification` | `backend/apps/gamification/models.py`, `views.py` | the level-up loop of `add_points`, the profile view and leaderboard ranks |
| `Authentication` | `backend/apps/authentication/authentication.py` | bearer-token extraction (section 2.1 of RFC 6750), Firebase sign-in, get-or-create and the combined authenticator |
| `AuthModels` | `backend/apps/authentication/models.py` | the user record, full name, consent fields and log text, the user table and unique usernames |
| `AuthMiddleware` | `backend/apps/authentication/middleware.py` | skipped paths, token choice, email-based get-or-create, the activity throttle and error handling |
| `AuthSerializers` | `backend/apps/authentication/serializers.py` | registration, login and change-password validation, and consent updates that log only changed fields |
| `AuthService` | `frontend/src/services/authService.ts` | the Firebase guard, the error-code table, profile creation and synchronisation |
| `Weather` | `frontend/src/services/weather.ts` | hemisphere-aware seasons and the weather insights |
| `Journal` | `frontend/src/pages/JournalPage.tsx` | entry flattening, newest-first order, saving, the photo statistic and the CSV export (section 2 of RFC 4180) with a reader that reads it back |
| `StoresPage`, `StoresViews` | `frontend/src/pages/StoresPage.tsx`, `backend/apps/stores/views.py` | the cart, its total and checkout; the store filter and the order total |
| `Bookings` | `backend/apps/bookings/views.py` | hotel and train booking records and the reservations filter |
| `RegisterPage`, `ProfilePage` | `frontend/src/pages/RegisterPage.tsx`, `ProfilePage.tsx` | form validation order, handlers, password change and the feedback `mailto:` link |
| `UriComponent` | (shared) | ECMAScript's `encodeURIComponent` over UTF-8, with a decoder proved to invert it |
| `EmergencySOS` | `frontend/src/components/EmergencySOS.tsx` | hospital candidates, the nearest one, the report and the share or mail fallback |

The stateful parts keep the source's form. The tracking session, the trip
store, the points row, the user table and the pages' state are classes whose
methods update their fields. The loops are methods with invariants, each
proved against a specification function. Pure computations are functions.
The properties are proved about those functions as lemmas.

## Model

| member | source | states |
|---|---|---|
| Common.CountKeys | backend/apps/trips/models.py:308-311 | the counting loop gives each key its number of occurrences, has exactly the keys that occur, and lists them in first-insertion order |
| Common.MostFrequent | backend/apps/trips/models.py:307-312 | `max` over the counts picks a key of greatest count, the earliest inserted among ties, and none without keys |
| Common.FirstMostFrequentUnique | backend/apps/trips/models.py:307-312 | at most one key is of greatest count with every earlier-inserted key less frequent, so `max`'s pick is determined |
| Common.SortDesc | backend/apps/gamification/views.py:38 | sorting by a key in descending order gives a permutation of the input with non-increasing keys |
| Common.InsertDescSorted | backend/apps/gamification/views.py:38 | inserting into a descending list keeps it descending |
| Common.RoundTo | backend/apps/trips/models.py:170 | rounding to a multiple of `1/unit` moves a value by at most half a unit and keeps a non-negative value non-negative |
| Common.Trunc | backend/apps/trips/models.py:134 | `int()` on a float truncates toward zero |
| Common.Round | frontend/src/components/EmergencySOS.tsx:112 | `Math.round` lands within half a unit of its input |
| Common.Clamp | backend/apps/trips/ml_services/purpose_predictor.py:115-116 | the clamped value lies between the bounds: the value itself when inside them, the lower bound below them and the upper bound above them |
| Common.Lower | backend/apps/stores/views.py:24 | lower-casing keeps the length and maps each character on its own |
| Common.Trim | backend/apps/authentication/models.py:42 | the trimmed text is a contiguous slice of the text that neither starts nor ends with white space, and everything cut off before and after it is white space |
| Common.TrimStart | frontend/src/pages/JournalPage.tsx:140 | dropping leading white space leaves a suffix of the text that does not start with white space, and every character dropped is white space |
| Common.TrimEnd | frontend/src/pages/JournalPage.tsx:140 | dropping trailing white space leaves a prefix of the text that does not end with white space, and every character dropped is white space |
| Common.ReplaceChar | frontend/src/pages/JournalPage.tsx:319 | replacing a character changes exactly its occurrences and keeps the length |
| Common.NatToString | frontend/src/pages/JournalPage.tsx:92 | a number's decimal text is non-empty and made of digits |
| Common.NatToStringInjective | frontend/src/pages/JournalPage.tsx:92 | different numbers have different decimal texts |
| Common.UpTo | frontend/src/pages/RegisterPage.tsx:85 | the text before the first separator is a prefix without the separator, ending where the text or the separator does |
| Common.Split | frontend/src/pages/RegisterPage.tsx:85 | splitting gives at least one piece, the first being the text up to the first separator, and no piece holds the separator |
| Common.JoinSplit | frontend/src/services/authService.ts:115-119 | joining the pieces of a split with the separator gives back the text |
| Common.ListOf | frontend/src/pages/StoresPage.tsx:16 | a response yields a list exactly when it is a paginated `results` list or a bare list |
| Common.Or | backend/apps/bookings/views.py:25 | Python's `or` gives its left operand when that is truthy, else its right |
| Gamification.SpentClosedForm | backend/apps/gamification/models.py:43-46 | the points paid for the level-ups from level 1 to level L total 100·L·(L−1)/2, each level-up paying 100 times the level it leaves |
| Gamification.UserPoints.constructor | backend/apps/gamification/models.py:13-23 | a new points row has no points and no streaks, level 1, and 100 points to the next level |
| Gamification.UserPoints.AddPoints | backend/apps/gamification/models.py:31-48 | the total gains `points` and only the sub-total named by the type (trip, eco, streak; none for another name) gains them; afterwards the total is below the threshold, the level has not dropped, a level-up leaves a non-negative total, the threshold is 100 times the level, the remaining total plus the points spent on level-ups grows by exactly `points`, and the streaks are untouched |
| Gamification.BadgesOf | backend/apps/gamification/views.py:13-28 | the profile lists exactly the user's badge rows, each once (a permutation of them), newest earned first as the badge model's default ordering sorts them |
| Gamification.OwnBadges | backend/apps/gamification/views.py:13 | a badge view is listed exactly when some row of the badge table belongs to the user and shows it |
| Gamification.OwnBadgesConcat | backend/apps/gamification/views.py:13 | filtering two badge tables in a row is filtering each: the filter keeps table order |
| Gamification.PointsTable.Profile | backend/apps/gamification/views.py:9-29 | the user's existing points row is returned and the table is unchanged; without one, a fresh row with the defaults is stored under the user; the view shows that row's total, level and streaks and the user's badges |
| Gamification.ByPoints | backend/apps/gamification/views.py:38 | the rows ordered by descending total, a permutation of the input |
| Gamification.Leaderboard | backend/apps/gamification/views.py:38-46 | the leaderboard has ten rankings, or one per row when there are fewer |
| Gamification.LeaderboardOrder | backend/apps/gamification/views.py:40-46 | ranks are numbered 1, 2, … in order and points never increase down the board |
| Gamification.LeaderboardMembers | backend/apps/gamification/views.py:41-46 | every ranking carries the username, points and level of an existing row |
| Gamification.LeaderboardSubMultiset | backend/apps/gamification/views.py:38-46 | the board's rows, counted with repetition, are part of the points table: no row is invented or shown twice |
| Gamification.LeaderboardIsTop | backend/apps/gamification/views.py:38 | no row left off the board has more points than the last ranked one |
| TripModels.CalculateDuration | backend/apps/trips/models.py:130-134 | without an end time the trip is unchanged; otherwise only the duration changes, to the elapsed seconds divided by 60 truncated toward zero (so `int()` of a negative elapsed time rounds up) |
| TripModels.MarkCompleted | backend/apps/trips/models.py:136-142 | an existing end time is kept and a missing one becomes now; the duration is recomputed from that end time; the status becomes completed, so the trip is no longer active; nothing else changes |
| TripModels.EmissionFactor | backend/apps/trips/models.py:155-169 | the factor lies in [0, 0.25]; an unknown mode gets 0.15; it is zero exactly for walk and cycle |
| TripModels.CarbonFootprint | backend/apps/trips/models.py:148-170 | zero when the distance is missing or zero; otherwise distance times the mode's factor rounded to two places (within 0.005 of the exact product) |
| TripModels.CarbonFootprintBounds | backend/apps/trips/models.py:148-170 | for a non-negative distance the footprint is non-negative, at most 0.25 kg per km (plus rounding), and zero for walking and cycling |
| TripModels.ModesOf | backend/apps/trips/models.py:310-311 | the transport mode of each trip, in order |
| TripModels.TripChain.constructor | backend/apps/trips/models.py:287-289 | a new chain has zero totals and an empty primary mode |
| TripModels.TripChain.CalculateTotals | backend/apps/trips/models.py:301-314 | the total distance and duration are the sums with missing values counted as 0; without trips the primary mode is kept; otherwise it is a mode of the chain with the highest count, and every mode met earlier in the chain has a strictly lower count (Python's `max` keeps the first maximal item of the insertion-ordered dict) |
| TripSerializers.PredictionDuration | backend/apps/trips/serializers.py:80-90 | a given non-zero duration is used; otherwise, with more than one waypoint, last-minus-first timestamp in minutes; a result that is zero or missing becomes 10, so the duration is never 0 |
| TripSerializers.PrepareForPrediction | backend/apps/trips/serializers.py:75-102 | the prediction input carries the distance (0 when missing), the duration above, the start hour and weekday, and the waypoints |
| TripSerializers.AsTripData | backend/apps/trips/serializers.py:95-102 | the dictionary handed to the purpose predictor always holds the `transport_mode` key, so the predictor reads the sent mode, `None` included, and never its `walk` default |
| TripSerializers.ValidatedModeGiven | backend/apps/trips/models.py:65 | a request the serializer accepts always carries a non-empty mode, since the field is required and blank is not a choice, so `create` never predicts the mode for it |
| TripSerializers.ValidatedModeScored | backend/apps/trips/serializers.py:101 | for a request the serializer accepts, the purpose predictor scores the mode that was sent |
| TripSerializers.UnsentModeScoresNeutral | backend/apps/trips/serializers.py:101 | a trip created without a mode would reach the purpose predictor with mode `None`, scored the neutral 1 for every purpose; this case is unreachable through the endpoints, which refuse a request without a mode first (see ValidatedModeGiven) |
| TripSerializers.Create | backend/apps/trips/serializers.py:45-73 | the new trip copies the start time, origin, destination, distance and companion count from the input, has no end time or duration, the given id, owner and status and the default flags; a supplied mode or purpose is kept (with confidence 0), a missing one is predicted from the prepared input (for the mode, only for a caller that skips validation; both endpoints validate first); the waypoint rows are exactly one per supplied waypoint, in order, attached to the new trip |
| TripSerializers.TagPhotos | backend/apps/trips/serializers.py:141-144 | the photos read from a list of tags: at most one per tag |
| TripSerializers.PhotosOf | backend/apps/trips/serializers.py:133-146 | an uploaded file's URL comes first, without a caption |
| TripSerializers.DiaryOf | backend/apps/trips/serializers.py:147-152 | an entry keeps the annotation's id, note and creation time |
| TripSerializers.NewestFirst | backend/apps/trips/serializers.py:132 | the annotations reordered by descending creation time, a permutation of them |
| TripSerializers.CollectPhotos | backend/apps/trips/serializers.py:133-146 | the loop collects exactly the photos `PhotosOf` describes |
| TripSerializers.GetDiaries | backend/apps/trips/serializers.py:130-153 | one entry per annotation, the k-th entry built from the k-th annotation newest first |
| TripSerializers.DiariesNewestFirst | backend/apps/trips/serializers.py:130-153 | the listing is ordered newest first and contains an entry for every annotation of the trip |
| TripSerializers.UpdateTrip | backend/apps/trips/serializers.py:183-188 | any update marks the trip validated and not needing review; each of mode, purpose, destination latitude, longitude and address, companion count, privacy and research sharing is written when supplied and kept when absent; an empty update changes only the two flags |
| TripSerializers.CompletionValid | backend/apps/trips/serializers.py:285-288 | an absent end time is accepted; a given one is accepted exactly when it is at most 24 hours before now |
| TripViews.ActiveTripOf | backend/apps/trips/views.py:94 | an active trip of the user started no earlier than any other of the user's active trips (the default `-start_time` order), or None exactly when the user has no active trip |
| TripViews.FindTrip | backend/apps/trips/views.py:116-119 | the position of the trip with that id owned by that user (and active, when required), or None exactly when there is no such trip |
| TripViews.PointStepOf | backend/apps/trips/views.py:145-147 | `lat` falls back to `latitude` and `lon` to `lng` then `longitude` by truthiness; an element lacking either is skipped; a waypoint takes the numeric values; a non-object raises |
| TripViews.PathRows | backend/apps/trips/views.py:140-155 | at most one waypoint per path element, each attached to the trip and stamped now |
| TripViews.PathRowsAllTaken | backend/apps/trips/views.py:144-153 | when every element has usable coordinates, exactly one waypoint per element, in path order, with those coordinates |
| TripViews.CreatePathWaypoints | backend/apps/trips/views.py:140-155 | the loop creates exactly the waypoints `PathRows` describes, stopping at the first element that raises |
| TripViews.WithCompletionFields | backend/apps/trips/views.py:126-130 | end time (now when absent), destination coordinates, address (empty when absent) and companions come from the request; nothing else changes |
| TripViews.WithParsedDistance | backend/apps/trips/views.py:133-137 | the distance is overwritten only by a value that parses as a number; otherwise the trip is unchanged |
| TripViews.WithFinalLabels | backend/apps/trips/views.py:158-161 | mode and purpose are overridden only by non-empty values; nothing else changes |
| TripViews.ApplyCompletion | backend/apps/trips/views.py:126-165 | the completed trip keeps its id, owner and start, takes the request's end time, keeps its distance unless a number was sent, has a duration and is completed, so no longer active |
| TripViews.CompletedOf | backend/apps/trips/views.py:243 | exactly the user's completed trips |
| TripViews.UserCompletedTrips | backend/apps/trips/views.py:243 | the user's completed trips in descending start order (the model's default ordering), a permutation of them |
| TripViews.Saved | backend/apps/trips/views.py:272-278 | the corrected carbon saving of a trip (a missing distance counts as 0) is non-negative for a non-negative distance |
| TripViews.CarbonSavedCrashes | backend/apps/trips/views.py:275-276 | as written, one completed walk without a distance makes the statistics fail, where the corrected sum is 0 |
| TripViews.CarbonSavedAgrees | backend/apps/trips/views.py:272-278 | when every trip has a distance, the computation as written and the corrected one agree |
| TripViews.EcoScore | backend/apps/trips/views.py:280-285 | the score is within 0..100; 100 without distance or without carbon; 0 from 0.2 kg per km on |
| TripViews.EcoScoreMonotone | backend/apps/trips/views.py:280-285 | over the same distance, more carbon never gives a higher score |
| TripViews.Prefix50 | backend/apps/trips/views.py:292 | the first 50 characters, or the whole address when shorter |
| TripViews.DestinationKeys | backend/apps/trips/views.py:291-292 | the counted keys are non-empty and at most 50 characters long |
| TripViews.StartedSince | backend/apps/trips/views.py:265-266 | the number of trips started since the given instant is at most the number of trips |
| TripViews.CarbonTotals | backend/apps/trips/views.py:269-278 | the loop sums the footprints and the (corrected) savings of all trips |
| TripViews.FavouriteDestination | backend/apps/trips/views.py:287-296 | "N/A" when no trip has an address; otherwise the counted key of maximal count that was inserted first among the equally frequent ones (the one `max` over `dest_counts` returns), at most 50 characters long |
| TripViews.StatsEcoScoreRange | backend/apps/trips/views.py:280-285 | the eco score of any set of trips lies within 0..100 |
| TripViews.AcceptedPhotos | backend/apps/trips/views.py:460-464 | at most one stored photo per element of the posted list |
| TripViews.Accepted | backend/apps/trips/views.py:461-464 | a plain URL or an object with a non-empty `url` gives one photo; anything else none |
| TripViews.UrlPhotoRoundTrip | backend/apps/trips/serializers.py:145-146 | the annotation stored for a URL photo reads back as an entry with its id, note, time and exactly that URL and caption |
| TripViews.UploadCaptionNotListed | backend/apps/trips/serializers.py:141-144 | an uploaded photo reads back by its file URL alone: the caption stored in its tags has no `url` key and is not listed |
| TripViews.NoteRow | backend/apps/trips/views.py:440-441 | a note-only annotation exactly when the note is non-empty |
| TripViews.CaptionStrings | backend/apps/trips/views.py:432-435 | captions that parse to a list give its items, a string gives its characters one by one, an object none |
| TripViews.UploadAnnotations | backend/apps/trips/views.py:443-444 | one annotation per uploaded file, numbered in order, with caption `captions[i]` or "" when the list is shorter |
| TripViews.BuildUploadRows | backend/apps/trips/views.py:443-444 | the loop creates exactly the annotations `UploadAnnotations` describes, with ids below the next free id |
| TripViews.BuildUrlRows | backend/apps/trips/views.py:460-464 | the loop creates one annotation per accepted photo, in order, with ids below the next free id |
| TripViews.AnnotationsOf | backend/apps/trips/serializers.py:132 | exactly the annotations of the trip |
| TripViews.FindFavourites | backend/apps/trips/views.py:258-296 | the most used mode is of maximal count and the favourite destination is the first inserted of maximal count, each "N/A" when there is none |
| TripViews.ComputeStats | backend/apps/trips/views.py:243-311 | every field of the statistics: count, rounded distance, duration, saving and footprint sums, week and month counts, mode and purpose breakdowns, favourites and eco score |
| TripViews.TripStore.constructor | backend/apps/trips/views.py:89-109 | the empty tables satisfy the store invariant |
| TripViews.TripStore.CreateTrip | backend/apps/trips/views.py:20-28 | a request the serializer refuses (no mode or one outside the choices, a purpose outside the choices, a negative distance or companion count, an address over 255 characters) gets 400 and nothing is stored; otherwise a new trip with a fresh id is appended, owned by the user and active (the status default), built from the request exactly as the serializer builds it and keeping the sent mode with confidence 0, and exactly its waypoint rows follow the old ones, whatever active trips the user already has; ids stay unique |
| TripViews.TripStore.StartTrip | backend/apps/trips/views.py:89-109 | a user with an active trip is refused with the latest started one and nothing changes; otherwise a request the serializer refuses gets 400 and nothing changes; otherwise a new active trip with a fresh id, built from the request exactly as the serializer builds it and keeping the sent mode with confidence 0, is appended, and exactly its waypoint rows follow the old ones; ids stay unique |
| TripViews.TripStore.CompleteTrip | backend/apps/trips/views.py:112-172 | no active trip of the user with that id gives 404; a request the serializer refuses (a missing destination coordinate, a blank address or label, an end time over 24 hours old) gives 400; both change nothing; otherwise only that trip is replaced by its completion and the path's waypoints are appended; ids stay unique |
| TripViews.TripStore.Stats | backend/apps/trips/views.py:239-314 | the statistics of the user's completed trips |
| TripViews.TripStore.AddDiaryMultipart | backend/apps/trips/views.py:424-445 | an unknown trip gives 404 and stores nothing; when there are photos and the captions are a number, boolean, null or non-empty object, the first photo's lookup raises and the request's transaction (`ATOMIC_REQUESTS`) rolls back the note row, so nothing is stored; otherwise the note row (for a non-empty note) and then one row per file are stored, with fresh ids and the caption at its index (a string's character for string captions), or "" |
| TripViews.TripStore.AddDiaryUrls | backend/apps/trips/views.py:448-465 | an unknown trip gives 404 and stores nothing; a null `photos` fails the request and its transaction rolls back the note row, so nothing is stored; otherwise the note row (for a non-empty note) and one row per accepted photo are stored, with fresh ids |
| TripViews.TripStore.Diaries | backend/apps/trips/serializers.py:130-153 | the trip's diary listing, newest first, one entry per annotation |
| TripViews.CompletionKeepsOneActive | backend/apps/trips/views.py:163-165 | completing a trip keeps every user at one active trip at most |
| TripViews.StartKeepsOneActive | backend/apps/trips/views.py:94-109 | appending a trip for a user without an active trip keeps every user at one active trip at most |
| TripViews.ListCreateAllowsTwoActive | backend/apps/trips/views.py:20-54 | two active trips of one user, which the list endpoint allows, break the one-active-trip rule |
| TripViews.UrlDiaryRoundTrip | backend/apps/trips/serializers.py:145-146 | once the URL endpoint's annotations are stored, the trip's listing holds, for each accepted photo, an entry with the note and exactly that URL and caption |
| TripViews.UrlAnnotationStored | backend/apps/trips/views.py:463-464 | each stored URL annotation is among the trip's annotations |
| TripTracking.PathLengthAppend | frontend/src/pages/TripsPage.tsx:100-108 | appending a fix to the path adds exactly the distance from the previous last fix to the path length (nothing for the first fix) |
| TripTracking.PathLengthMonotone | frontend/src/pages/TripsPage.tsx:100-108 | with non-negative step distances the path length is non-negative and never decreases as fixes are appended |
| TripTracking.RemoteId | frontend/src/pages/TripsPage.tsx:145 | the id is never empty; a truthy text `id` wins, then a truthy text `trip_id`; with none of `id`, `trip_id`, `uuid` present there is no id |
| TripTracking.PathEntries | frontend/src/pages/TripsPage.tsx:162 | one `{lat, lon}` entry per fix, in order, with the same coordinates |
| TripTracking.AsPathPoints | frontend/src/pages/TripsPage.tsx:162 | each entry is read by the backend as a point with exactly that latitude and longitude, in order |
| TripTracking.StopPathReachesBackend | frontend/src/pages/TripsPage.tsx:159-163 | the backend's path loop, taken alone, reads the entries the page builds as one stored waypoint per fix, in order, with the same coordinates, when no fix has a zero coordinate |
| TripTracking.AsCompletionRequest | frontend/src/pages/TripsPage.tsx:159-163 | the completion body the page sends carries the path entries, in order, and no destination |
| TripTracking.StopRequestRefused | frontend/src/pages/TripsPage.tsx:159-163 | the completion endpoint refuses the page's completion body with 400, since it lacks the required destination coordinates |
| TripTracking.ZeroLatitudeSkipped | frontend/src/pages/TripsPage.tsx:162 | an entry with latitude 0 is dropped by the backend, since it tests the coordinate for truthiness |
| TripTracking.PhotoRequests | frontend/src/pages/TripsPage.tsx:215 | one photo per uploaded URL, in order, with the caption at the same index, or none when there are fewer captions |
| TripTracking.AsPhotoInputs | frontend/src/pages/TripsPage.tsx:215-216 | each photo is sent as an object with its URL and caption, in order |
| TripTracking.UploadedPhotosAccepted | frontend/src/pages/TripsPage.tsx:214-216 | when every uploaded URL is non-empty the backend accepts every photo, in order, with its URL and caption |
| TripTracking.DiaryCallFor | frontend/src/pages/TripsPage.tsx:209-220 | without a trip id the multipart call goes to `new`; with one and no storage or no files it goes to that trip; with both, the URL call carries one photo per uploaded URL; no call is made exactly when the upload fails |
| TripTracking.NearbyDueCases | frontend/src/pages/TripsPage.tsx:110-114 | the first fix always triggers a nearby fetch; a fix within 150 m of the last fetch and within 60 s of it does not |
| TripTracking.GeoJson | frontend/src/pages/TripsPage.tsx:339-352 | no export for fewer than two fixes; otherwise one `[lon, lat]` coordinate per fix, in order, with the active trip id as a property |
| TripTracking.GeoJsonRoundTrip | frontend/src/pages/TripsPage.tsx:339-352 | reading each exported coordinate back as `[lon, lat]` gives the original fix |
| TripTracking.TrackPoints | frontend/src/pages/TripsPage.tsx:357 | one `trkpt` element per fix, in order |
| TripTracking.Gpx | frontend/src/pages/TripsPage.tsx:353-367 | no export for fewer than two fixes; otherwise the XML header, the opening tags, the track points and the closing tags, in that order |
| TripTracking.TrackPointAt | frontend/src/pages/TripsPage.tsx:357 | the k-th fix's `trkpt` sits in the segment between the points before it and those after it |
| TripTracking.TrackSegmentAppend | frontend/src/pages/TripsPage.tsx:357 | the segment of two concatenated paths is the concatenation of their segments |
| TripTracking.TrackingSession.constructor | frontend/src/pages/TripsPage.tsx:25-46 | not tracking, an empty path at distance 0, no watch, no trip id, no nearby fetch yet, an empty diary; the running distance equals the path length |
| TripTracking.TrackingSession.Start | frontend/src/pages/TripsPage.tsx:70-150 | without geolocation only the unsupported error is set and nothing else changes; otherwise the error is cleared, tracking starts with the new watch and start time, an initial fix becomes the current position, centre and last point, the start request carries the last point's coordinates, and a usable id from the response becomes the active trip; the path, distance, nearby places and diary form are kept |
| TripTracking.TrackingSession.Begin | frontend/src/pages/TripsPage.tsx:76-150 | tracking starts with the new watch and start time, an initial fix becomes the current position, centre and last point, the start request carries the last point's coordinates, and a usable id from the response becomes the active trip; no other field changes |
| TripTracking.TrackingSession.TakeInitialFix | frontend/src/pages/TripsPage.tsx:76-89 | an initial fix becomes the current position, the centre and the last point; without one the three are kept; no other field changes |
| TripTracking.TrackingSession.AdoptTripId | frontend/src/pages/TripsPage.tsx:138-150 | a response with a usable id makes it the active trip id; a failed call or one without an id keeps the old id; no other field changes |
| TripTracking.TrackingSession.OnFix | frontend/src/pages/TripsPage.tsx:95-127 | the fix is appended, the distance grows by the last step so it stays the path length, the first fix sets the centre, a fetch happens exactly when due, and only a successful one updates the places and the last fetch point and time; the tracking fields, error, start time and diary form are unchanged |
| TripTracking.TrackingSession.Advance | frontend/src/pages/TripsPage.tsx:93-107 | the fix is appended and becomes the current position and last point, the first fix sets the centre, and the distance grows by the last step so it stays the path length; only those fields change |
| TripTracking.TrackingSession.FetchNearby | frontend/src/pages/TripsPage.tsx:110-125 | a fetch is made exactly when no fetch point exists, the fix is more than 150 m from it, or more than 60 s passed; only a successful fetch replaces the places and records the fix and the time; every other field is unchanged |
| TripTracking.TrackingSession.OnWatchError | frontend/src/pages/TripsPage.tsx:128-130 | the watch's message becomes the error; every other field is unchanged |
| TripTracking.TrackingSession.Stop | frontend/src/pages/TripsPage.tsx:152-168 | the watch is cleared and tracking stops; with a trip id the completion request carries the end time, the distance in km to three decimals and the path; without one nothing is sent; the path, distance, trip id, error, start time, positions, nearby places and diary form are unchanged |
| TripTracking.TrackingSession.ChooseFiles | frontend/src/pages/TripsPage.tsx:177-184 | the chosen files and their previews replace the old ones, with one empty caption per file; the note, saving flag, route, positions, nearby places, tracking fields, error and start time are unchanged |
| TripTracking.TrackingSession.SaveDiary | frontend/src/pages/TripsPage.tsx:188-234 | an empty note with no files does nothing; otherwise a trip created on the fly becomes the active trip, the call is the one `DiaryCallFor` chooses, the saving flag ends cleared, and the diary fields are cleared only after a call that succeeded; the route, positions, nearby places, tracking flag, watch, error and start time are unchanged |
| TripTracking.TrackingSession.Submit | frontend/src/pages/TripsPage.tsx:190-233 | the call for the diary's trip is the one `DiaryCallFor` chooses, the saving flag ends cleared, and the diary fields are cleared exactly after a call that succeeded; only the diary fields, the saving flag and the trip id can change |
| TripTracking.TrackingSession.DiaryTrip | frontend/src/pages/TripsPage.tsx:193-207 | the diary goes to the active trip, or else to the trip started for it, whose id, when it has one, becomes the active trip id; only the trip id can change |
| TripTracking.TrackingSession.ClearDiary | frontend/src/pages/TripsPage.tsx:224-228 | the note, files, captions and previews are emptied and nothing else changes |
| TripTracking.StopDistanceIsPathLength | frontend/src/pages/TripsPage.tsx:161 | the kilometres sent on stop are non-negative and within 0.0005 of the path length divided by 1000 |
| Movement.SpeedForms | backend/apps/trips/ml_services/mode_detector.py:135-138 | distance over hours and distance over seconds times 3600 are the same speed, so both detectors' formulas agree |
| Movement.Speeds | backend/apps/trips/ml_services/mode_detector.py:125-139 | one speed per step with a positive time gap, in order, so at most one fewer than the fixes |
| Movement.SlowSteps | backend/apps/trips/ml_services/mode_detector.py:141-143 | the stop count never exceeds the number of recorded speeds |
| Movement.Mean | backend/apps/trips/ml_services/mode_detector.py:159 | the mean of no speeds is 0 |
| Movement.MaxOrZero | backend/apps/trips/ml_services/mode_detector.py:160 | 0 for no speeds; otherwise one of the speeds and no smaller than any of them |
| Movement.MeanAtMostMax | backend/apps/trips/ml_services/mode_detector.py:159-160 | the average speed never exceeds the maximum speed |
| Movement.MeanNonNegative | backend/apps/trips/ml_services/mode_detector.py:159 | the mean of non-negative speeds is non-negative |
| Movement.FoldAngle | backend/apps/trips/ml_services/mode_detector.py:151-153 | a difference in [0, 360] folds into [0, 180], keeping differences up to 180 and mapping the rest to 360 minus them |
| Movement.Turns | backend/apps/trips/ml_services/mode_detector.py:146-156 | at most one turn per triple of consecutive fixes, none for fewer than three fixes |
| Movement.TurnAngleRange | backend/apps/trips/ml_services/mode_detector.py:146-153 | with bearings inside a 360-degree window every folded turn lies in [0, 180] |
| Movement.CountDirectionChanges | backend/apps/trips/ml_services/mode_detector.py:146-156 | the loop counts exactly the triples whose folded bearing difference exceeds 45 degrees |
| Movement.StopStart | backend/apps/trips/ml_services/mode_detector.py:226-230 | a stop in progress began at a fix before the current step |
| Movement.TilesBounds | backend/apps/trips/ml_services/mode_detector.py:238-256 | tiling ranges are strictly increasing, non-overlapping and lie within the track |
| Movement.TilesExtend | backend/apps/trips/ml_services/mode_detector.py:238-243 | closing the open range right after the closed ones keeps them tiling the track from fix 0 |
| Movement.CutsRespectedExtend | backend/apps/trips/ml_services/mode_detector.py:232-245 | closing the open range keeps every range starting at 0 or at a cut and holding no other cut |
| Movement.ProgressNoCut | backend/apps/trips/ml_services/mode_detector.py:226-248 | a step that does not end a long enough stop only updates the stop in progress and keeps the loop's invariant |
| Movement.ProgressCut | backend/apps/trips/ml_services/mode_detector.py:232-245 | a fast step ending a stop of at least the minimum duration closes an open range of two fixes or more and restarts at the step |
| Movement.ProgressFinish | backend/apps/trips/ml_services/mode_detector.py:250-256 | after the last step the open range is emitted exactly when it spans two fixes or more, and the result is a segmentation |
| Movement.SegmentStep | backend/apps/trips/ml_services/mode_detector.py:213-248 | one pass of the loop keeps the invariant: the ranges so far tile the track up to the last cut and align with the cuts |
| Movement.SegmentRanges | backend/apps/trips/ml_services/mode_detector.py:205-258 | no ranges for fewer than two fixes; otherwise ranges that tile the track from fix 0, begin exactly at the cuts (steps ending a stop of at least the minimum duration), and reach the last fix unless the last step is itself a cut |
| ModeDetector.Smoothness | backend/apps/trips/ml_services/mode_detector.py:163 | the score lies in (0, 1] and is 1 exactly for a track without direction changes |
| ModeDetector.SlowStepsAreSlowSpeeds | backend/apps/trips/ml_services/mode_detector.py:137-143 | the stop count is the number of recorded speeds below 1 km/h |
| ModeDetector.AnalyzeWaypoints | backend/apps/trips/ml_services/mode_detector.py:102-164 | fewer than two fixes give zero speeds and counts with smoothness 0.5; otherwise the mean and maximum of the positive-gap speeds, the slow-step count, the count of turns over 45 degrees and the smoothness of that count |
| ModeDetector.WithWaypoints | backend/apps/trips/ml_services/mode_detector.py:239-256 | each segment keeps its range and holds exactly the fixes of that inclusive range |
| ModeDetector.DetectTripSegments | backend/apps/trips/ml_services/mode_detector.py:194-258 | no segments for fewer than two fixes; the segments tile the track along the cuts, a step without a positive gap counting as a stop step, and each holds exactly the fixes of its range |
| AdvancedModeDetector.NormalizeCondition | backend/apps/trips/ml_services/advanced_mode_detector.py:726 | lower-casing and replacing spaces by underscores keeps the length |
| AdvancedModeDetector.EncodeWeatherCondition | backend/apps/trips/ml_services/advanced_mode_detector.py:707-727 | every code lies in [0, 10]; an unknown condition gets 0 |
| AdvancedModeDetector.NormalizeIdempotent | backend/apps/trips/ml_services/advanced_mode_detector.py:726-727 | normalising twice is normalising once, so an already normalised condition encodes the same |
| AdvancedModeDetector.StopDurations | backend/apps/trips/ml_services/advanced_mode_detector.py:320-329 | every recorded stop duration exceeds 30 seconds |
| AdvancedModeDetector.AbsAll | backend/apps/trips/ml_services/advanced_mode_detector.py:354-355 | one absolute value per acceleration, each non-negative |
| AdvancedModeDetector.SmoothnessScore | backend/apps/trips/ml_services/advanced_mode_detector.py:359-360 | the score is clamped into [0.1, 1.0] and is 1 for a track without turns or stops |
| AdvancedModeDetector.AnalysisOf | backend/apps/trips/ml_services/advanced_mode_detector.py:280-372 | fewer than two fixes give zero speeds, counts and accelerations with smoothness 0.5; the smoothness always lies in [0.1, 1.0] |
| AdvancedModeDetector.StopDurationsAtMostStops | backend/apps/trips/ml_services/advanced_mode_detector.py:320-329 | there are never more recorded stop durations than slow steps |
| AdvancedModeDetector.AccelerationsCount | backend/apps/trips/ml_services/advanced_mode_detector.py:331-336 | one acceleration per recorded speed after the first |
| AdvancedModeDetector.AnalysisBounds | backend/apps/trips/ml_services/advanced_mode_detector.py:352-371 | with non-negative distances the average speed is non-negative and at most the maximum, the mean absolute acceleration is at most the maximum, the stop-duration count is at most the stop count, and a non-zero stop-duration count means an average above 30 s |
| AdvancedModeDetector.SpeedsNonNegative | backend/apps/trips/ml_services/advanced_mode_detector.py:314-317 | with non-negative distances every recorded speed is non-negative |
| AdvancedModeDetector.SumOfMoreThan | backend/apps/trips/ml_services/advanced_mode_detector.py:356 | the mean of values all above a bound is above it |
| AdvancedModeDetector.AnalyzeStep | backend/apps/trips/ml_services/advanced_mode_detector.py:297-336 | one pass of the step loop extends the speeds, stop count, stop durations and accelerations by exactly step `i`'s contribution |
| AdvancedModeDetector.StopStep | backend/apps/trips/ml_services/advanced_mode_detector.py:319-329 | a slow step adds a stop, and a stop duration when the next gap exceeds 30 s; a faster step adds neither |
| AdvancedModeDetector.AccelerationStep | backend/apps/trips/ml_services/advanced_mode_detector.py:331-336 | from the second recorded speed on, the difference of the last two speeds over the gap is appended |
| AdvancedModeDetector.StillStep | backend/apps/trips/ml_services/advanced_mode_detector.py:314 | a step without a positive gap changes none of the gathered measures |
| AdvancedModeDetector.AnalyzeWaypoints | backend/apps/trips/ml_services/advanced_mode_detector.py:269-372 | the loops compute exactly the analysis `AnalysisOf` defines |
| AdvancedModeDetector.AvgSpeed | backend/apps/trips/ml_services/advanced_mode_detector.py:140-144 | 0 without a positive duration; otherwise the speed times the duration in minutes is the distance times 60 |
| AdvancedModeDetector.Features | backend/apps/trips/ml_services/advanced_mode_detector.py:132-191 | no features exactly when a null duration, an unparseable start time or a null weather condition or precipitation makes the computation raise; otherwise the average speed; with a start time its hour, weekday, weekend flag (weekday 5 or 6) and rush-hour flag (hours 7-10 or 16-19); without one the given hour or 12 and zero flags; without waypoints a maximum speed of 1.5 times the average and zero counts |
| AdvancedModeDetector.FeatureVector | backend/apps/trips/ml_services/advanced_mode_detector.py:193-196 | one value per column, in column order, each the named feature |
| AdvancedModeDetector.PreprocessData | backend/apps/trips/ml_services/advanced_mode_detector.py:122-207 | eleven values, in the fixed column order: zeros when the computation raises, otherwise each the feature computed from the trip and its waypoint analysis |
| AdvancedModeDetector.MakeSegment | backend/apps/trips/ml_services/advanced_mode_detector.py:609-620 | the segment keeps its range, holds exactly its fixes, carries the mode predicted for those fixes and their first and last timestamps |
| AdvancedModeDetector.WithModes | backend/apps/trips/ml_services/advanced_mode_detector.py:609-639 | each range becomes a labelled segment, in order |
| AdvancedModeDetector.DetectTripSegments | backend/apps/trips/ml_services/advanced_mode_detector.py:555-641 | fewer than ten fixes give one unlabelled segment from 0 to the last index (-1 for none); otherwise the segments tile the track along the cuts, a step without a positive gap being ignored, and each is labelled with its fixes, mode and times |
| AdvancedModeDetector.TrainGuard | backend/apps/trips/ml_services/advanced_mode_detector.py:384-391 | training happens exactly when it is enabled and there are at least 50 samples; when disabled the result is skipped |
| PurposePredictor.OvernightComplement | backend/apps/trips/ml_services/purpose_predictor.py:136-142 | an overnight low window (start after end) holds exactly the hours outside the daytime window between its end and start |
| PurposePredictor.PowUnitBounds | backend/apps/trips/ml_services/purpose_predictor.py:136-142 | repeated low-window factors of at most 1 keep the score positive and at most its start |
| PurposePredictor.TimeScoreRange | backend/apps/trips/ml_services/purpose_predictor.py:120-155 | every time score is positive and at most 2 |
| PurposePredictor.CalculateTimeScore | backend/apps/trips/ml_services/purpose_predictor.py:120-155 | without a start time 0.5; otherwise 0.3, raised to 1 in a peak window, times 0.3 per low window containing the hour (overnight windows wrapping), times the weekend boost or penalty, or the weekday boost |
| PurposePredictor.Matches | backend/apps/trips/ml_services/purpose_predictor.py:165 | the number of matching keywords is at most the number of keywords |
| PurposePredictor.LocationScoreOf | backend/apps/trips/ml_services/purpose_predictor.py:157-176 | the location score is never below 0.1 |
| PurposePredictor.NoConflictsUndamped | backend/apps/trips/ml_services/purpose_predictor.py:169-174 | when no other purpose's keyword occurs in the address the conflict loop leaves the score unchanged |
| PurposePredictor.LocationWithoutConflicts | backend/apps/trips/ml_services/purpose_predictor.py:157-176 | without conflicting keywords the score is the match boost `1 + 0.5 * matches`, and 1 when nothing matches |
| PurposePredictor.CalculateLocationScore | backend/apps/trips/ml_services/purpose_predictor.py:157-176 | the loops compute exactly the boosted, conflict-damped score floored at 0.1 |
| PurposePredictor.DampedStep | backend/apps/trips/ml_services/purpose_predictor.py:170-174 | each further purpose multiplies the score by its conflict factor |
| PurposePredictor.DampByConflicts | backend/apps/trips/ml_services/purpose_predictor.py:170-174 | the loop multiplies in the factor `1 - 0.2 * conflicts` of every other purpose with a conflicting keyword, in table order |
| PurposePredictor.ModeScore | backend/apps/trips/ml_services/purpose_predictor.py:178-206 | an unlisted mode gives 1; every score lies in [0.7, 1.4] |
| PurposePredictor.TripModeScore | backend/apps/trips/ml_services/purpose_predictor.py:178-206 | a trip whose mode is `None` scores 1 (it is in no preference table); a missing mode scores as `walk`; any other as its mode; every score lies in [0.7, 1.4] |
| PurposePredictor.SimilarTrips | backend/apps/trips/ml_services/purpose_predictor.py:213-227 | only past trips, each within two hours of the current one and within 500 m of its non-zero destination |
| PurposePredictor.HistoryScoreRange | backend/apps/trips/ml_services/purpose_predictor.py:208-243 | the history score is 0.8 or lies in [1, 2]; it exceeds 1 exactly when the purpose occurs among the similar trips |
| PurposePredictor.ShareAtMostOne | backend/apps/trips/ml_services/purpose_predictor.py:240 | a purpose's share of the similar trips lies in (0, 1] |
| PurposePredictor.FindSimilar | backend/apps/trips/ml_services/purpose_predictor.py:213-227 | the loop keeps exactly the similar trips, in order |
| PurposePredictor.CountPurposes | backend/apps/trips/ml_services/purpose_predictor.py:232-236 | the loop counts each purpose among the similar trips, `other` standing for a missing one |
| PurposePredictor.CalculateHistoryScore | backend/apps/trips/ml_services/purpose_predictor.py:208-243 | 1 without history or without similar trips; otherwise 1 plus the purpose's share of them, or 0.8 when it is absent |
| PurposePredictor.BaseScorePositive | backend/apps/trips/ml_services/purpose_predictor.py:82-95 | every patterned purpose's score before noise is positive |
| PurposePredictor.BaseScores | backend/apps/trips/ml_services/purpose_predictor.py:84-101 | one score per purpose, patterned purposes first and then medical, business, exercise and other |
| PurposePredictor.OtherPurposesBase | backend/apps/trips/ml_services/purpose_predictor.py:97-101 | the four purposes without patterns score 0.1, and every base score is positive |
| PurposePredictor.WithNoise | backend/apps/trips/ml_services/purpose_predictor.py:103-105 | the noise keeps one score per purpose |
| PurposePredictor.ArgMax | backend/apps/trips/ml_services/purpose_predictor.py:108 | the first index of a maximal score |
| PurposePredictor.PredictionShare | backend/apps/trips/ml_services/purpose_predictor.py:107-112 | with positive noise the total is positive and the predicted purpose is the first maximal one, with confidence its share of the total, in (0, 1] |
| PurposePredictor.ScoreScored | backend/apps/trips/ml_services/purpose_predictor.py:82-95 | the product of the time, location, mode and, with history, history scores, the mode score being that of the mode read with the `walk` default only for a missing key, so a `None` mode scores the neutral 1 |
| PurposePredictor.ScoreAll | backend/apps/trips/ml_services/purpose_predictor.py:84-101 | the loops compute exactly the base scores |
| PurposePredictor.ApplyNoise | backend/apps/trips/ml_services/purpose_predictor.py:103-105 | each score is multiplied by its noise factor |
| PurposePredictor.PredictPurpose | backend/apps/trips/ml_services/purpose_predictor.py:58-118 | the predicted purpose is the first maximal noisy score and the confidence its share of the total, clamped into [0.2, 0.9] |
| PurposePredictor.FirstMax | backend/apps/trips/ml_services/purpose_predictor.py:108 | the loop finds the first maximal score |
| PurposePredictor.Total | backend/apps/trips/ml_services/purpose_predictor.py:111 | the loop sums the scores |
| PurposePredictor.ClusterKeys | backend/apps/trips/ml_services/purpose_predictor.py:258-276 | the clusters are keyed exactly by the four-decimal keys of the trips whose destination latitude and longitude are both present and non-zero |
| PurposePredictor.ClusterVisits | backend/apps/trips/ml_services/purpose_predictor.py:266-274 | each cluster's visit count is the number of kept trips to it |
| PurposePredictor.ClusterPurposes | backend/apps/trips/ml_services/purpose_predictor.py:275-276 | a cluster's purpose tally holds exactly the purposes of kept trips to it, each with its count |
| PurposePredictor.VisitsForAtMostVisits | backend/apps/trips/ml_services/purpose_predictor.py:274-276 | no purpose's count at a destination exceeds the destination's visits |
| PurposePredictor.LocationsCount | backend/apps/trips/ml_services/purpose_predictor.py:278-281 | each purpose's location list holds one entry per kept trip with that purpose |
| PurposePredictor.AnalysisCounts | backend/apps/trips/ml_services/purpose_predictor.py:284-300 | the destination total is the number of distinct keys; a purpose is a common destination exactly when it has at least three kept trips, with that visit count |
| PurposePredictor.SkippedTripIgnored | backend/apps/trips/ml_services/purpose_predictor.py:263 | a trip without a truthy latitude and longitude changes nothing in the analysis |
| PurposePredictor.AnalyzeLocationPatterns | backend/apps/trips/ml_services/purpose_predictor.py:245-300 | the loops compute exactly the clusters, the common destinations with their centroids, and the total |
| Authentication.BearerToken | backend/apps/authentication/authentication.py:97-98 | the token taken from a `Bearer` header holds no space |
| Authentication.GetFirebaseToken | backend/apps/authentication/authentication.py:91-110 | an empty token can only come from a `Bearer` header with nothing after the space |
| Authentication.TokenPrecedence | backend/apps/authentication/authentication.py:95-110 | a `Bearer` header wins; otherwise a non-empty `X-Firebase-Auth` header; otherwise a non-empty `firebase_token` query parameter; otherwise none |
| Authentication.SplitName | backend/apps/authentication/authentication.py:145-151 | the first name holds no space; a name with a space splits at its first space into first and last name; a name without one is all first name |
| Authentication.LocalPart | backend/apps/authentication/authentication.py:154 | the email up to its first `@`, which holds no `@` |
| Authentication.FirebaseUser | backend/apps/authentication/authentication.py:139-183 | a new active user with the token's uid and email, the name split into first and last, location tracking and analytics consent on, data sharing and marketing off, so basic consent holds |
| Authentication.GetOrCreateUser | backend/apps/authentication/authentication.py:112-190 | the one user with the uid, unchanged; else the user with the email, who takes the uid; else a new user under the first free username among the email's local part and its numbered variants; several users with the uid make the lookup fail; no other table changes |
| Authentication.GetOrCreateUserOn | backend/apps/authentication/authentication.py:121-190 | without the `firebase_uid` column the first query raises and the lookup gives none without writing; with it, as `GetOrCreateUser` says |
| Authentication.UidColumnMissing | backend/apps/authentication/models.py:6-35 | the declared `User` model has neither a `firebase_uid` nor a `photo_url` column |
| Authentication.AuthenticateAsWritten | backend/apps/authentication/authentication.py:121-127 | against the declared `User` model every verified token is refused with "Firebase authentication failed" and no user changes |
| Authentication.AuthenticateWithUidColumn | backend/apps/authentication/authentication.py:52-73 | with the uid column, a verified token with a uid and an email signs in the user it resolves to unless two rows share the uid |
| Authentication.VerifyFailure | backend/apps/authentication/authentication.py:75-89 | each SDK error maps to its own 401 message, and only the generic error reads "Firebase authentication failed" |
| Authentication.SignIn | backend/apps/authentication/authentication.py:52-73 | a token without uid or email, a `User` model without the uid column, or a failed lookup gives a 401 reading "Firebase authentication failed" (the error raised inside the `try` reaches its generic handler) and changes no user; with the column, uid and email, sign-in succeeds exactly when no two rows share the uid, and then the resolved user (by uid, else by email taking the uid, else created) is stamped now, saved in its place and returned with the claims |
| Authentication.Authenticate | backend/apps/authentication/authentication.py:30-89 | no SDK or no token gives no credentials, and a token always gives credentials or a failure; a verification error its 401; a verified token as `SignIn` says; only a success changes the users |
| Authentication.Combine | backend/apps/authentication/authentication.py:316-334 | a Firebase failure or success is final; with no Firebase credentials a session user is authenticated without claims, else none; a failure only comes from Firebase |
| Authentication.MultipleAuthenticate | backend/apps/authentication/authentication.py:316-334 | without the SDK or a token the session decides as `Combine` says and no user changes; with a token the Firebase outcome decides, a verification error giving its 401 and a verified token with uid and email succeeding exactly when the column exists and no two rows share the uid; a user without claims came from the session |
| AuthModels.NewUser | backend/apps/authentication/models.py:6-29 | a new row is active with no usable password and no Firebase uid, every consent flag False (so no basic consent), and its activity time now |
| AuthModels.FullName | backend/apps/authentication/models.py:40-42 | the full name is empty or neither starts nor ends with white space |
| AuthModels.FullNameParts | backend/apps/authentication/models.py:40-42 | no names give an empty full name; a first and a last name without outer spaces give both joined by one space |
| AuthModels.UpdateLastActivity | backend/apps/authentication/models.py:48-50 | only the activity time changes, to now |
| AuthModels.ConsentField.ConsentType | backend/apps/authentication/models.py:56-61 | each consent type is its user field's name without the `_consent` suffix |
| AuthModels.WithConsent | backend/apps/authentication/serializers.py:116-119 | the named consent flag takes the value; the other flags and every other field keep theirs |
| AuthModels.ConsentLogText | backend/apps/authentication/models.py:74-76 | the email, a space, `granted` or `revoked` as the log says, a space and the consent type followed by ` consent` |
| AuthModels.ConsentLogTextShowsAction | backend/apps/authentication/models.py:74-76 | a granted and a revoked log of the same change never read the same |
| AuthModels.FindByEmail | backend/apps/authentication/authentication.py:130-131 | the row with the email when there is one; otherwise no row has it |
| AuthModels.UidMatches | backend/apps/authentication/authentication.py:123-124 | exactly the indices of the rows with the uid |
| AuthModels.FindByUid | backend/apps/authentication/authentication.py:123-127 | not found exactly when no row has the uid; found only when exactly one row has it |
| AuthModels.FindById | backend/apps/authentication/models.py:6-9 | the row with the id when there is one; otherwise no row has it |
| AuthModels.FindByIdUnique | backend/apps/authentication/models.py:6-9 | with unique ids, looking up a row's id finds that very row |
| AuthModels.RewriteKeepsUnique | backend/apps/authentication/models.py:9 | saving a row with the same id, email and username keeps ids, emails and usernames unique |
| AuthModels.AppendKeepsUnique | backend/apps/authentication/models.py:9 | inserting a row with a fresh id, email and username keeps them unique |
| AuthModels.CandidatesDistinct | backend/apps/authentication/authentication.py:154-160 | the names the username loop tries are pairwise different |
| AuthModels.UniqueUsername | backend/apps/authentication/authentication.py:154-160 | the username is free, and it is the first of the local part and its numbered variants that is |
| AuthModels.FirstFreeUnique | backend/apps/authentication/authentication.py:154-160 | only one username is the first free candidate, so the loop's result is determined by the base and the taken names |
| AuthModels.UserTable.constructor | backend/apps/authentication/models.py:6-50 | an empty table whose keys are unique |
| AuthModels.UserTable.Rewrite | backend/apps/authentication/models.py:48-50 | saving replaces exactly one row and keeps the keys unique; no other table changes |
| AuthModels.UserTable.Insert | backend/apps/authentication/authentication.py:163-171 | creating appends the row under the next id and keeps the keys unique; no other table changes |
| AuthMiddleware.ApiPathsAuthenticated | backend/apps/authentication/middleware.py:67-78 | an API path outside the documentation and schema prefixes is not skipped |
| AuthMiddleware.MiddlewareToken | backend/apps/authentication/middleware.py:93-104 | a token, when found, is never empty |
| AuthMiddleware.TokenAsRestAuthenticator | backend/apps/authentication/middleware.py:93-104 | the middleware finds the same token as the REST authenticator except that it never reads the query parameter; no headers give no token |
| AuthMiddleware.MiddlewareUser | backend/apps/authentication/middleware.py:173-209 | a new user with the name split into first and last, location tracking and analytics consent on, the other two off, and no phone number |
| AuthMiddleware.GetOrCreateByEmail | backend/apps/authentication/middleware.py:149-217 | without the `firebase_uid` column both paths raise (the save names an unknown field, the creation an unknown keyword) and none is returned with no user changed; with it, the user with the email, who takes the uid only when they have none, else a new user under the first free username derived from the email; no other table changes |
| AuthMiddleware.AuthenticateFirebaseUser | backend/apps/authentication/middleware.py:86-147 | a user exactly when the app is ready, a token is found, it verifies, its claims have a uid and an email and the uid column exists; the new users table is the old one with that user's row stamped now (taking the uid if it had none), or with a new row appended under the first free username derived from the email; every failure is swallowed and changes no user |
| AuthMiddleware.AuthenticateFirebaseUserAsWritten | backend/apps/authentication/middleware.py:160-168 | against the declared `User` model the middleware authenticates nobody and changes no user |
| AuthMiddleware.AuthenticateFirebaseUserWithUidColumn | backend/apps/authentication/middleware.py:86-147 | with the uid column, a found token that verifies with a uid and an email always yields a user with that email, stamped now |
| AuthMiddleware.Call | backend/apps/authentication/middleware.py:63-84 | a skipped path authenticates nobody and changes no user; any other path signs in exactly when the token conditions hold, with the same new users table as the authenticator; no profile, setting or consent log changes |
| AuthMiddleware.TrackActivity | backend/apps/authentication/middleware.py:237-250 | only the activity time can change: to now when unset or more than five minutes old, otherwise the user is unchanged |
| AuthMiddleware.ActivityThrottled | backend/apps/authentication/middleware.py:243-247 | two requests within five minutes of the last stamp leave it alone |
| AuthMiddleware.HandleErrors | backend/apps/authentication/middleware.py:261-277 | answers pass through; an exception becomes a JSON 500 exactly under `/api/` and is re-raised elsewhere |
| AuthSerializers.ValidateRegistration | backend/apps/authentication/serializers.py:22-25 | the data is accepted unchanged exactly when the two passwords match; otherwise the non-field error "Passwords don't match." |
| AuthSerializers.RegisteredUser | backend/apps/authentication/serializers.py:27-32 | the new user carries the submitted username, email, names, phone number and four consent flags, accepts exactly the submitted password, is active and has no Firebase uid |
| AuthSerializers.Register | backend/apps/authentication/serializers.py:27-38 | one user row is appended under the next id, with one profile row and one settings row for it; no consent log is written |
| AuthSerializers.ModelBackend | backend/apps/authentication/serializers.py:52 | a user is returned only when the email, the password and the active flag all match |
| AuthSerializers.ValidateLogin | backend/apps/authentication/serializers.py:47-61 | accepted exactly when both fields are given and the backend returns an active user, who is the result; a missing field gives "Email and password are required."; no user from the backend gives "Invalid credentials."; "Account is disabled." requires a user from the backend |
| AuthSerializers.DisabledMessageUnreachable | backend/apps/authentication/serializers.py:53-56 | with the backend that rejects inactive users, "Account is disabled." is never the answer: a disabled account with the right password gets "Invalid credentials." |
| AuthSerializers.CredentialsMatch | backend/apps/authentication/serializers.py:52 | a match has the email and accepts the password, whatever its active flag |
| AuthSerializers.ValidateLoginIntended | backend/apps/authentication/serializers.py:47-61 | accepted exactly when the backend accepts; "Account is disabled." exactly when the credentials match an inactive account |
| AuthSerializers.ConsentsApplied | backend/apps/authentication/serializers.py:116-119 | every flag ends at the last value sent for it, or keeps its value when none was sent; nothing else changes |
| AuthSerializers.ChangedLogs | backend/apps/authentication/serializers.py:116-128 | at most one log per update, each for this user with the request's address and agent, naming a sent flag whose value differed, and recording the new value |
| AuthSerializers.OnlyChangesLogged | backend/apps/authentication/serializers.py:116-128 | when each flag is sent at most once, the logs written are exactly the changed flags, in order |
| AuthSerializers.LastSentNone | backend/apps/authentication/serializers.py:116 | a flag that is not sent has no last value |
| AuthSerializers.NoChangeNoLog | backend/apps/authentication/serializers.py:116-128 | sending only the current values changes nothing and logs nothing |
| AuthSerializers.UpdateConsents | backend/apps/authentication/serializers.py:106-131 | the user's flags are updated as `ApplyConsents` says, the row is saved (stamping its activity time), and the change logs are appended to the consent log; nothing else changes |
| AuthSerializers.ValidateChangePassword | backend/apps/authentication/serializers.py:149-155 | accepted, with the new password, exactly when the new passwords match and the current one is right; a mismatch reports "New passwords don't match." first, then a wrong current password "Incorrect current password." under `old_password` |
| AuthSerializers.ChangePassword | backend/apps/authentication/serializers.py:157-161 | afterwards the account accepts exactly the new password; only the password and the activity time change |
| AuthService.EnsureFirebase | frontend/src/services/authService.ts:29-35 | an error exactly when the auth or the database client is missing, and its code is `auth/config-missing` |
| AuthService.AuthErrorMessage | frontend/src/services/authService.ts:318-357 | a listed code gets its own message, any other the generic one; no message is empty |
| AuthService.GenericOnlyForUnlisted | frontend/src/services/authService.ts:318-357 | the generic message is given exactly for codes outside the list |
| AuthService.ConfigMissingReported | frontend/src/services/authService.ts:29-35 | a missing client is reported as "Authentication is not configured. Please try again later or contact support." |
| AuthService.NewProfile | frontend/src/services/authService.ts:55-68 | the profile carries the account's uid and email, the display name, creation and login time now, and the initial travel statistics |
| AuthService.ProfileStore.constructor | frontend/src/services/authService.ts:29-35 | no profile documents yet |
| AuthService.ProfileStore.SignUpWithEmail | frontend/src/services/authService.ts:38-79 | signs in exactly when Firebase is configured, the account is created and a given display name is applied; the account takes the given display name; the profile is written only when the write succeeds; a failure writes nothing |
| AuthService.ProfileStore.SignInWithEmail | frontend/src/services/authService.ts:82-107 | signs in exactly when Firebase is configured and the credentials are accepted; only an existing profile's login time is updated, and only when reading and writing succeed |
| AuthService.ProfileStore.SignInWithProvider | frontend/src/services/authService.ts:135-175 | signs in exactly when Firebase is configured and the popup succeeds; an existing profile gets a new login time and a missing one is created; the backend sync is the one `SyncCall` computes; a failure writes and sends nothing |
| AuthService.DisplayNameSplitAgrees | frontend/src/services/authService.ts:115-119 | splitting a display name at every space and joining the rest gives the same first and last name as the backend's split at the first space |
| AuthService.IfPresent | frontend/src/services/authService.ts:121-123 | a field is sent exactly when it is non-empty, with its value |
| AuthService.SyncCall | frontend/src/services/authService.ts:110-132 | no call when the name parts and the photo are all empty; otherwise each non-empty part is sent |
| AuthService.SyncNames | frontend/src/services/authService.ts:112-124 | a one-word name is sent as the first name only; a first and last name are sent as such |
| Weather.Opposite | frontend/src/services/weather.ts:41-47 | the southern season always differs from the northern one |
| Weather.OppositeInvolution | frontend/src/services/weather.ts:41-47 | flipping a season twice gives it back |
| Weather.NorthernSeason | frontend/src/services/weather.ts:36-40 | winter exactly for December to February, spring for March to May, summer for June to August, autumn for September to November |
| Weather.InferSeason | frontend/src/services/weather.ts:31-49 | a latitude of 0 or more gets the northern season, a negative one its opposite |
| Weather.EquatorIsNorthern | frontend/src/services/weather.ts:34 | the equator counts as northern, so January there is winter |
| Weather.HemispheresOpposite | frontend/src/services/weather.ts:34-47 | mirrored latitudes have opposite seasons in every month |
| Weather.HalfYearOpposite | frontend/src/services/weather.ts:36-47 | six months later the season is the opposite one |
| Weather.AqiLevel | frontend/src/services/weather.ts:123-124 | "Unknown" exactly for an index outside 1 to 5 |
| Weather.Summary | frontend/src/services/weather.ts:105-119 | the conditions sentence comes first with the temperature (20 when missing); the rainfall sentence appears exactly when the combined one- and three-hour rain is positive |
| Weather.Tips | frontend/src/services/weather.ts:122-129 | the air-quality line always comes first, with the level of the index (2 when missing) |
| Weather.AirQualityTip | frontend/src/services/weather.ts:124 | the air-quality line carries the level of the index |
| Weather.GenerateInsights | frontend/src/services/weather.ts:103-132 | no reading gives the no-data summary and no tips; a reading gives at least the air-quality tip, first |
| Weather.InAdviceOrder | frontend/src/services/weather.ts:125-129 | every piece of advice has its place in the fixed order |
| Weather.ApplicableMembers | frontend/src/services/weather.ts:125-129 | the filtered advice holds exactly the pieces of the order that apply |
| Weather.ConsSorted | frontend/src/services/weather.ts:125-129 | advice ranked before all of a sorted rest keeps the list sorted |
| Weather.ApplicableSorted | frontend/src/services/weather.ts:125-129 | filtering an order keeps the advice in that order |
| Weather.RestRankedAbove | frontend/src/services/weather.ts:125-129 | advice after the head of the order ranks after it |
| Weather.AdviceIsFilter | frontend/src/services/weather.ts:125-129 | the advice lines are the fixed order filtered by the conditions that hold |
| Weather.TipsApply | frontend/src/services/weather.ts:125-129 | a piece of advice is given exactly when its condition holds (index 4 or more, rain over 2 mm, over 30 or under 5 degrees, wind over 12 m/s) |
| Weather.TipsInOrder | frontend/src/services/weather.ts:122-129 | the tips come in the source's fixed order |
| Weather.MissingValuesDefault | frontend/src/services/weather.ts:104-131 | for every reading, a missing temperature reads as 20, a missing felt temperature as the temperature, a missing description as stable conditions, a missing humidity as 50% and a missing air-quality index as fair; a reading missing every value the advice looks at gets the air-quality line alone |
| Weather.UmbrellaOnCombinedRain | frontend/src/services/weather.ts:109-126 | for every reading, the umbrella advice is given exactly when the rain of the last hour and of the last three hours, a missing one counting as 0, sum to more than 2 mm |
| Journal.DiaryEntry | frontend/src/pages/JournalPage.tsx:76-87 | a diary becomes an entry with its own id, note and photos plus the trip's id, mode, distance, start time and place (location name, else destination); its creation time falls back to the trip's start |
| Journal.SyntheticEntry | frontend/src/pages/JournalPage.tsx:90-102 | a trip without diaries gets one entry with id `trip-<id>`, no photos, the trip's start as creation time and the trip's notes as note when there are any |
| Journal.TripEntriesShape | frontend/src/pages/JournalPage.tsx:75-103 | a trip contributes exactly its diaries, in order, each tagged with the trip's id; or the single synthetic entry when it has no diaries but notes or a mode; or nothing |
| Journal.Flatten | frontend/src/pages/JournalPage.tsx:74-104 | the loop over the trips builds exactly the concatenation of each trip's entries |
| Journal.FlattenedLength | frontend/src/pages/JournalPage.tsx:74-104 | the flattened list has as many entries as the trips' per-trip counts add up to |
| Journal.FlattenedFromTrips | frontend/src/pages/JournalPage.tsx:74-104 | every flattened entry carries the id of one of the loaded trips |
| Journal.Sorted | frontend/src/pages/JournalPage.tsx:118-124 | the shown order is a permutation of the entries, newest first, an entry without a creation time counting as time 0 |
| Journal.PhotosCaptured | frontend/src/pages/JournalPage.tsx:568 | the photo statistic over the sorted list equals the sum of the entries' photo counts, so sorting does not change it |
| Journal.CsvFields | frontend/src/pages/JournalPage.tsx:313-321 | a CSV row has one field per header column, the note's line breaks become spaces, and the last field is the number of photos |
| Journal.CsvRows | frontend/src/pages/JournalPage.tsx:312-321 | there is one row per entry, each as wide as the header |
| Journal.Csv | frontend/src/pages/JournalPage.tsx:322 | the exported text starts with the header line |
| Journal.ReadEscaped | frontend/src/pages/JournalPage.tsx:322 | a field written with its quotes doubled and closed by a quote reads back as the original field |
| Journal.RecordsRoundTrip | frontend/src/pages/JournalPage.tsx:322 | any non-empty list of non-empty records written as quoted, comma-separated, line-separated fields reads back as the same records, whatever commas, quotes or line breaks the fields contain |
| Journal.CsvReadsBack | frontend/src/pages/JournalPage.tsx:311-322 | without entries the export is the header line alone; otherwise it is the header, a line break and the rows, which read back as exactly the rows |
| Journal.FirstLocation | frontend/src/pages/JournalPage.tsx:149-151 | a location is found exactly when some picked photo has one, and it is the first such photo's |
| Journal.JournalPage.constructor | frontend/src/pages/JournalPage.tsx:46-55 | the page starts loading, with no entries, no trips, no error and an empty note and photo picker |
| Journal.JournalPage.Load | frontend/src/pages/JournalPage.tsx:57-116 | a failing trips request clears entries and trips and sets the error; otherwise the trips are the response's list, and the entries are the timeline's list when it gives one, else the flattened trips; loading ends either way |
| Journal.JournalPage.SaveJournalEntry | frontend/src/pages/JournalPage.tsx:127-171 | a blank note without photos sets the error and changes nothing else; otherwise the new entry goes first and the note, photos and picker are cleared |
| Journal.Attached | frontend/src/pages/JournalPage.tsx:141-144 | the new entry's photos are the picked photos, in order, each with its preview as URL and its caption |
| Journal.PlaceOf | frontend/src/pages/JournalPage.tsx:149-151 | the new entry has a place exactly when some picked photo carries a location |
| Journal.NewEntry | frontend/src/pages/JournalPage.tsx:138-152 | the new entry has the trimmed note, the current time, no trip and no distance, the picked photos and the first photo location as its place |
| StoresPage.FindLine | frontend/src/pages/StoresPage.tsx:26 | the index found is the first cart entry for the item's store and id; none is found exactly when no entry is for it |
| StoresPage.AddIncrements | frontend/src/pages/StoresPage.tsx:24-34 | adding an item already in a cart without repeats raises that entry's quantity by one and leaves the other entries and the length unchanged |
| StoresPage.AddAppends | frontend/src/pages/StoresPage.tsx:32 | adding an item not in the cart appends one entry with the store, the item's id, name and price, and quantity 1 |
| StoresPage.AddKeepsNoRepeats | frontend/src/pages/StoresPage.tsx:24-34 | adding never creates a second entry for the same item of the same store |
| StoresPage.AddedTotal | frontend/src/pages/StoresPage.tsx:24-36 | adding an item raises the total by one unit of its price: the price in its entry, or the catalog price for a new entry |
| StoresPage.BumpTotal | frontend/src/pages/StoresPage.tsx:29-36 | one more of an entry raises the total by that entry's price |
| StoresPage.OneMoreUnit | frontend/src/pages/StoresPage.tsx:36 | one more unit adds one price to an entry's share of the total |
| StoresPage.Payload | frontend/src/pages/StoresPage.tsx:40 | the checkout payload has one item per cart entry, in order, with its store id, item id and quantity |
| StoresPage.PostedLines | frontend/src/pages/StoresPage.tsx:40 | the items as the API receives the posted payload: one per cart entry, in order, with its store id, item id and quantity and no price |
| StoresPage.PostedOrderTotalIsZero | frontend/src/pages/StoresPage.tsx:40 | the payload the page posts carries no prices, so the stores API places an order for any cart and records total 0 |
| StoresPage.PricedOrderTotalMatches | frontend/src/pages/StoresPage.tsx:36-40 | had each payload item carried its price, the API would place the order with the cart's total |
| StoresPage.PlacedMessage | frontend/src/pages/StoresPage.tsx:42 | the alert names the order id the server sent, or `OK` when it is missing or empty |
| StoresPage.Page.constructor | frontend/src/pages/StoresPage.tsx:8-10 | the page starts with an empty query, store list and cart |
| StoresPage.Page.Search | frontend/src/pages/StoresPage.tsx:12-22 | the store list becomes the response's list (paginated or bare), or empty when it holds none or the request threw; the cart is untouched |
| StoresPage.Page.AddToCart | frontend/src/pages/StoresPage.tsx:24-34 | the cart becomes the added cart and stays free of repeated items with every quantity at least one |
| StoresPage.Page.Checkout | frontend/src/pages/StoresPage.tsx:38-47 | the current cart's payload is posted; a placed order empties the cart and alerts its id, a failure keeps the cart and alerts the failure |
| StoresViews.Catalog | backend/apps/stores/views.py:25-31 | the catalog is the file's stores when it reads, else the two default stores |
| StoresViews.MatchingMembers | backend/apps/stores/views.py:33 | a store is kept exactly when it is in the catalog and the query occurs in its name or in one of its items' names, lower-cased |
| StoresViews.MatchingConcat | backend/apps/stores/views.py:33 | the filter keeps the catalog's order: filtering two catalogs in a row is filtering each |
| StoresViews.EmptyQueryMatches | backend/apps/stores/views.py:32-33 | every store matches the empty query |
| StoresViews.Stores | backend/apps/stores/views.py:23-34 | with an empty query the whole catalog is returned; otherwise exactly the catalog's stores that match the lower-cased query |
| StoresViews.StoresKeepOrder | backend/apps/stores/views.py:23-34 | the result lists the stores in catalog order |
| StoresViews.Checkout | backend/apps/stores/views.py:38-52 | a price or quantity that `float` or `int` rejects raises and no order is written; otherwise the order gets the fresh id, the user, the posted items (none when absent), status `placed` and the sum of price times quantity, and the reply is 201 with the order id |
| StoresViews.UnpricedLinesAreFree | backend/apps/stores/views.py:44 | items without a price add nothing to the total |
| StoresViews.UnitQuantityByDefault | backend/apps/stores/views.py:44 | items without a quantity count once |
| Bookings.Get | backend/apps/bookings/views.py:25-26 | a missing key reads as nothing, a present one as its value |
| Bookings.BookingName | backend/apps/bookings/views.py:25 | the name is the name key's value when truthy, else the id key's when truthy, else the fallback; it is truthy whenever the fallback is non-empty |
| Bookings.Provider | backend/apps/bookings/views.py:26 | the provider is the posted one when the key is present (even `null`), else `backend` |
| Bookings.HotelsBook | backend/apps/bookings/views.py:18-32 | a hotel booking carries the fresh id, type `hotel`, the user, the time and the posted body; its name is `hotel_name`, else `hotel_id`, else `Hotel`, and is never falsy |
| Bookings.TrainsBook | backend/apps/bookings/views.py:40-54 | a train booking carries the fresh id, type `train`, the user, the time and the posted body; its name is `train_name`, else `train_id`, else `Train`, and is never falsy |
| Bookings.Reservations | backend/apps/bookings/views.py:56-69 | the loop collects, in file order, the records whose `user_id` equals the requester's, skipping malformed and non-object lines; no file gives nothing |
| Bookings.MineMembers | backend/apps/bookings/views.py:62-68 | a record is listed exactly when some object line of the log holds it under the requester's id |
| Bookings.MineConcat | backend/apps/bookings/views.py:62-68 | the listing of two logs in a row is the listing of each |
| Bookings.BookingListedForItsOwner | backend/apps/bookings/views.py:30-31 | a booking appended to the log is listed for its own user, at the end, and for no other user |
| RegisterPage.WithInput | frontend/src/pages/RegisterPage.tsx:39-44 | the named input takes the typed value and every other input keeps its own |
| RegisterPage.Validate | frontend/src/pages/RegisterPage.tsx:46-68 | the reported failure is the first that applies, in order: a missing field, differing passwords, a password under 6 characters, a terms or privacy box unchecked; the form passes exactly when none applies |
| RegisterPage.ValidFormUsesDisplayName | frontend/src/pages/RegisterPage.tsx:47-85 | a form that passes validation has a display name, so the backend username is always the display name and the email fallback is never taken |
| RegisterPage.Page.constructor | frontend/src/pages/RegisterPage.tsx:24-33 | the page starts with an empty form, both boxes unchecked, no error, not loading and not navigated |
| RegisterPage.Page.HandleInputChange | frontend/src/pages/RegisterPage.tsx:39-44 | the form becomes the form with the input changed; nothing else changes |
| RegisterPage.Page.CheckBoxes | frontend/src/pages/RegisterPage.tsx:285-316 | the two boxes take the given states; nothing else changes |
| RegisterPage.Page.Settle | frontend/src/pages/RegisterPage.tsx:75-93 | after the call, loading ends; success navigates to the dashboard with no error, a rejection shows the message for its error code |
| RegisterPage.Page.HandleRegister | frontend/src/pages/RegisterPage.tsx:70-94 | an invalid form shows its first failure's message and makes no call; a valid one signs up with Firebase when it is configured, else registers with the backend under the display name, and then settles |
| RegisterPage.Page.HandleSocialSignIn | frontend/src/pages/RegisterPage.tsx:96-137 | without Firebase only the unavailable message is set and no popup opens; with it the popup opens and the outcome settles as for registration |
| ProfilePage.WithChange | frontend/src/pages/ProfilePage.tsx:92-95 | the named field of the profile form takes the value and only it changes |
| ProfilePage.WithConsent | frontend/src/pages/ProfilePage.tsx:110-113 | the named consent flag takes the box's state and only it changes |
| ProfilePage.Merged | frontend/src/pages/ProfilePage.tsx:104 | saving copies the four form fields onto the user and keeps the displayed full name |
| ProfilePage.FeedbackLinkReadsBack | frontend/src/pages/ProfilePage.tsx:406-410 | the feedback link has exactly the parameters `subject` and `body`, which decode to the typed subject and to the message followed by the sender line, whatever was typed |
| ProfilePage.FeedbackBodyEndsWithSender | frontend/src/pages/ProfilePage.tsx:409 | the mail body always ends with `From: ` and the sender |
| ProfilePage.PasswordProblem | frontend/src/pages/ProfilePage.tsx:495-506 | differing new passwords are reported first; equal ones under 6 characters are reported as too short; otherwise there is no problem |
| ProfilePage.PasswordForm.constructor | frontend/src/pages/ProfilePage.tsx:483-489 | the password form starts empty, not loading, without error or success |
| ProfilePage.PasswordForm.Submit | frontend/src/pages/ProfilePage.tsx:491-513 | a failed check shows its message and keeps the fields; a passing one reports success and clears all three fields; loading ends either way |
| ProfilePage.Page.constructor | frontend/src/pages/ProfilePage.tsx:61-90 | the page starts with the demo user, the form filled from it, the demo consent flags, no messages and empty feedback fields |
| ProfilePage.Page.HandleChange | frontend/src/pages/ProfilePage.tsx:92-95 | the form changes in the named field only; the user, consent, messages, saving flags, feedback fields and location are unchanged |
| ProfilePage.Page.HandleConsentChange | frontend/src/pages/ProfilePage.tsx:110-113 | the consent flags change in the named flag only; the user, form, messages, saving flags, feedback fields and location are unchanged |
| ProfilePage.Page.HandleSave | frontend/src/pages/ProfilePage.tsx:97-108 | once the timer fires the user is the form merged into it, success is reported and saving ends; the consent, consent-saving flag, feedback fields and location are unchanged |
| ProfilePage.Page.HandleSaveConsent | frontend/src/pages/ProfilePage.tsx:115-124 | once the timer fires only the success message changes and consent saving ends; the consent flags are not sent anywhere; the user, form, saving flag, feedback fields and location are unchanged |
| ProfilePage.Page.SendFeedback | frontend/src/pages/ProfilePage.tsx:399-415 | without both a subject and a message only the error is set; otherwise the window goes to the feedback link signed with the user's email (the demo address when empty), success is reported and both fields are cleared; the user, form, consent, location and saving flags are unchanged in both cases |
| ProfilePage.Page.TypeFeedback | frontend/src/pages/ProfilePage.tsx:392-395 | the feedback fields take the typed text; the consent and saving flags are unchanged |
| ProfilePage.Page.ClearFeedback | frontend/src/pages/ProfilePage.tsx:418-420 | the feedback fields are emptied; the consent and saving flags are unchanged |
| UriComponent.Pct | frontend/src/pages/ProfilePage.tsx:407 | an escaped byte is `%` and two hex digits whose value is the byte |
| UriComponent.Utf8 | frontend/src/pages/ProfilePage.tsx:407 | a character's UTF-8 encoding has one to four bytes, a single byte exactly for ASCII, and continuation bytes in 0x80-0xBF |
| UriComponent.EncodeChar | frontend/src/pages/ProfilePage.tsx:407 | an encoded character is non-empty and made only of unreserved characters, `%` and hex digits |
| UriComponent.Encode | frontend/src/pages/ProfilePage.tsx:407-409 | an encoded component holds no `&`, `=`, `?` or `#` and is at least as long as the input |
| UriComponent.EncodeConcat | frontend/src/pages/ProfilePage.tsx:407-409 | encoding works character by character: encoding a concatenation concatenates the encodings |
| UriComponent.EncodeUnreserved | frontend/src/pages/ProfilePage.tsx:407 | text made only of unreserved characters encodes to itself |
| UriComponent.EncodeTwoWords | frontend/src/components/EmergencySOS.tsx:135 | two unreserved words joined by a space encode with the space as `%20` |
| UriComponent.DecodeEncode | frontend/src/pages/ProfilePage.tsx:407-409 | decoding an encoded component gives back the original text, for every text |
| UriComponent.DecodeRejectsOverlong | frontend/src/pages/ProfilePage.tsx:407-409 | the decoder used as the reference refuses an overlong UTF-8 form, as `decodeURIComponent` does, rather than reading it as the shorter character |
| UriComponent.MailtoReadsBack | frontend/src/pages/ProfilePage.tsx:406-410 | a `mailto:` link built from an address without `?` carries exactly the parameters `subject` and `body`, which decode to the given subject and body |
| EmergencySOS.Coords | frontend/src/components/EmergencySOS.tsx:62-63 | a node's place is its own coordinates; any other element's is its centre's, or none without a centre |
| EmergencySOS.FirstText | frontend/src/components/EmergencySOS.tsx:65 | the first text when it is non-empty, else the second |
| EmergencySOS.ToPlace | frontend/src/components/EmergencySOS.tsx:61-73 | a candidate has the element's id and place, the distance from here when both coordinates are truthy or else `MAX_SAFE_INTEGER`, the tagged name or the default name, and the contact phone, else the phone tag |
| EmergencySOS.Candidates | frontend/src/components/EmergencySOS.tsx:61-74 | one candidate per element, in order |
| EmergencySOS.UnlocatedElementKept | frontend/src/components/EmergencySOS.tsx:64-74 | an element without usable coordinates is kept, at distance `MAX_SAFE_INTEGER`, since that is finite |
| EmergencySOS.Nearest | frontend/src/components/EmergencySOS.tsx:79-80 | the chosen candidate is at the least distance, and the first such one (the sort is stable) |
| EmergencySOS.ErrorText | frontend/src/components/EmergencySOS.tsx:83 | an error shows its message, or the generic text when the message is empty |
| EmergencySOS.Locate | frontend/src/components/EmergencySOS.tsx:39-87 | without geolocation, or when the position or the search fails, the error says so; with a position and an answer the error is the no-hospitals text exactly when the answer has no element, and otherwise the nearest is the closest candidate; exactly one of error and nearest is set |
| EmergencySOS.ReportOf | frontend/src/components/EmergencySOS.tsx:107-114 | the report has the emergency type, the time, the user, the position, the client name and the nearest hospital (name, place, distance rounded to the metre) when one is known |
| EmergencySOS.SubjectEncoding | frontend/src/components/EmergencySOS.tsx:135 | the subject encodes as `Medical%20Emergency` |
| EmergencySOS.EmergencyMailtoReadsBack | frontend/src/components/EmergencySOS.tsx:135 | the fallback draft carries exactly the subject `Medical Emergency` and the whole alert text as body, whatever the text holds |
| EmergencySOS.Deliver | frontend/src/components/EmergencySOS.tsx:116-138 | a report the backend took needs nothing more; otherwise the device's share sheet is used when there is one, which may succeed or throw, and a mail draft when there is none |
| EmergencySOS.Sos.constructor | frontend/src/components/EmergencySOS.tsx:31-37 | the dialog starts closed, idle, with no error, position, nearest place or sent flag |
| EmergencySOS.Sos.LocateAndFindHospital | frontend/src/components/EmergencySOS.tsx:39-87 | error, nearest and position are those the search found (the old position stays when none was obtained); loading ends and the sent flag is cleared |
| EmergencySOS.Sos.HandleOpen | frontend/src/components/EmergencySOS.tsx:89-92 | the dialog opens and the search runs |
| EmergencySOS.Sos.HandleClose | frontend/src/components/EmergencySOS.tsx:94-100 | the dialog closes and error, nearest, sending and sent are cleared |
| EmergencySOS.Sos.HandleSend | frontend/src/components/EmergencySOS.tsx:102-146 | nothing happens without a position; otherwise the report is posted, the alert text is shared or drafted as a mail when the backend did not take it, `sent` is set on every path but a share that throws, which sets the error instead, and sending ends |
| EmergencySOS.Sos.FollowUp | frontend/src/components/EmergencySOS.tsx:124-142 | the alert text is shared when the share sheet is used (also when it throws), drafted as a `mailto:` link when there is none, nothing otherwise; `sent` is set except when the share throws, which sets the error |

## Left out

- Great-circle distance (haversine, geopy's `geodesic`) and bearings are floating-point trigonometry. They enter as function parameters. The proofs hold for any such function and state nothing about the trigonometry.
- Floating-point numbers are modelled as reals. NaN, infinities, overflow and rounding error are not modelled.
- Number-to-text conversion (`toFixed`, JavaScript's `String(number)`), date parsing and ISO time formatting are function parameters. Instants are whole seconds since the epoch in UTC.
- The machine-learning models are not modelled: loading, saving, scaling, training and prediction with scikit-learn and XGBoost, and the 0.6/0.4 ensemble. The mode or purpose a model would give enters as a parameter.
- The `random.uniform` noise of the purpose predictor is a parameter, one value per purpose.
- The `datetime.now()` fallback used when a timestamp does not parse is not modelled, because it depends on the clock.
- Network and browser calls are replaced by their outcomes, which are passed in as values; the requests made are returned. This covers the axios client and its token refresh, the Firebase SDK, the weather, forecast, air-quality and rain fetches, the Overpass search, geolocation, `navigator.share`, and `Blob` downloads.
- File I/O is replaced by values. The JSONL order and reservation logs are sequences of lines, and the store catalog file is an optional value. A failed log write is not modelled.
- The share sheet's `title` is not modelled.
- The journal's JSON export (`JSON.stringify`) is not modelled.
- The Django ORM becomes in-memory sequences and maps. Querysets, `order_by` and `save` are the corresponding operations on those values.
- The framework's routing, settings, admin registrations and demo-user script are not part of this model.
- Each request to the backend runs in one database transaction, as the server configuration sets `ATOMIC_REQUESTS` (backend/travelogy_backend/settings.py:201), so a request that raises stores nothing. The in-memory test database has no such setting; under it a diary note written before a failure would be kept, which the model does not follow.
- The analytics app, presentation components and the pages that only display data are not part of this model.
- Concurrency is not modelled. That covers React state batching, overlapping geolocation callbacks, `Promise.all` and fire-and-forget requests. Each handler runs to completion in turn.
- A `setTimeout` in the demo profile page is modelled as having fired.
- Weather.Summary: the summary sentences carry the values they show; their number formatting is not modelled.
- Common.RoundTo: rounds exact halves up, whereas Python's `round(x, 2)` rounds them to even. The contract states only the half-unit bound, which both satisfy.
- Common.Lower: lower-cases ASCII letters only; Python's `lower()` and JavaScript's `toLowerCase()` also map other scripts.
- Common.Trim: treats only space, tab, carriage return and line feed as white space; `strip()` and `trim()` also remove other Unicode spaces.
- Journal.Sorted: does not state that the sort is stable, that is, that entries with equal times keep their relative order.
- AuthService.ProfileStore.SignInWithProvider: the Firebase popup and its provider objects are not modelled; only the outcome of the call enters.
- AdvancedModeDetector.Features: a `distance_km`, `time_of_day` or `route_type`, or a weather `temperature`, that is present but null is read as missing, that is, as its default. In the source a null distance with a positive duration raises (and the features become zeros), and the other nulls put `None` into the feature vector.
- TripViews.TripStore.AddDiaryUrls: a `photos` value that is a string or an object (iterated by character or by key) is not modelled; `photos` is a list, or null.
- TripViews.TripStore.AddDiaryMultipart: caption list items that are not strings are not modelled.
- TripViews.FindFavourites: the most used mode is stated only as a mode of maximal count, because the database orders modes of equal count as it likes (`order_by('-count').first()`).
- TripViews.ActiveTripOf: among a user's active trips with equal start times the first in table order is taken; the database leaves the order of such ties unspecified.
- TripViews.TripStore.CreateTrip: a request that leaves out `start_time`, `origin_latitude` or `origin_longitude`, or sends a value that does not parse, cannot be written in the model, because its input always carries them; the 400 the serializer gives such a request is therefore not modelled. Nor are the checks on the nested waypoints, the `is_manually_created`, `weather` and `temperature` fields, or the addresses' white-space stripping.
- TripViews.TripStore.StartTrip: the same unrepresentable requests and unmodelled checks as for CreateTrip.
- TripViews.TripStore.CompleteTrip: a destination or end time that does not parse is not representable; texts are taken after the serializer strips their surrounding white space.
- TripTracking.TrackingSession.Start: the page's start body sends `lat` and `lon` but not the required `origin_latitude`, `origin_longitude` and `transport_mode`, so the start endpoint refuses it; and the endpoint's 201 answer nests the id under `trip`, where `RemoteId` does not look. The model keeps the page and the backend as two sides and does not connect these calls; `StopRequestRefused` states the one mismatch that the two completion models show directly.
- `FirebaseBackend` (backend/apps/authentication/authentication.py:199-305) is not part of this model. It is a Django authentication backend beside the REST authenticators modelled here, and its user creation repeats the get-or-create logic those authenticators use.

## Findings

| source | as written | input that shows it | evidently intended | confidence | as-written member | corrected member |
|---|---|---|---|---|---|---|
| backend/apps/trips/views.py:275-276 | the carbon saving multiplies `trip.distance_km` by a factor for walking, cycling, bus and metro trips | a walking trip whose `distance_km` is `None` raises a `TypeError`, which fails the whole statistics request | a missing distance counts as 0, as it does in the totals and in `carbon_footprint` | not executed | TripViews.CarbonSavedCrashes | TripViews.CarbonSavedAgrees |
| backend/apps/authentication/serializers.py:52-56 | login reports `Account is disabled.` when the authenticated user is inactive | an inactive user with the right password: Django's `ModelBackend` refuses inactive users, so `authenticate` returns `None` and the reply is `Invalid credentials.` | an inactive account with correct credentials is told that it is disabled | not executed | AuthSerializers.DisabledMessageUnreachable | AuthSerializers.ValidateLoginIntended |
| backend/apps/authentication/authentication.py:124 | the REST authenticator looks users up and updates them by `firebase_uid` | any verified Firebase token: `User` (backend/apps/authentication/models.py:6-35) declares no `firebase_uid` column, so the first query raises, the handler turns it into no user, and the request gets a 401 reading "Firebase authentication failed" | a verified token signs in the user with its uid, else its email, else a new user | not executed | Authentication.AuthenticateAsWritten | Authentication.AuthenticateWithUidColumn |
| backend/apps/authentication/middleware.py:163-200 | the middleware saves `firebase_uid` on a user found by email, and passes `firebase_uid` when it creates one | any verified Firebase token with a uid and an email: the save names a field `User` does not have and the creation passes an unknown keyword, both raise, and the error is swallowed, so no request is ever authenticated | the user with the token's email is signed in, taking the uid, or is created | not executed | AuthMiddleware.AuthenticateFirebaseUserAsWritten | AuthMiddleware.AuthenticateFirebaseUserWithUidColumn |
| frontend/src/pages/StoresPage.tsx:40 | the checkout payload carries each entry's store id, item id and quantity but not its price | any cart holding a priced item: the stores API (backend/apps/stores/views.py:44) reads a missing price as 0 and records the order with total 0 | the recorded order's total is the cart's total | not executed | StoresPage.PostedOrderTotalIsZero | StoresPage.PricedOrderTotalMatches |
