/**
 * The user and consent-log rows of the authentication app, and the users
 * table as an in-memory sequence of rows. A user's email and username are
 * unique, as the database enforces; `firebaseUid` is empty until a
 * Firebase sign-in writes it.
 */
module AuthModels {
  import opened Common

  datatype User = User(
    id: nat,
    username: string,
    email: string,
    firstName: string,
    lastName: string,
    firebaseUid: string,
    phoneNumber: string,
    photoUrl: string,
    // the password the account accepts; None for an unusable password
    password: Option<string>,
    isActive: bool,
    dataSharingConsent: bool,
    locationTrackingConsent: bool,
    analyticsConsent: bool,
    marketingConsent: bool,
    // rewritten by every full save of the row
    lastActivity: Option<Instant>)

  /**
   * The concrete columns of the `User` model: its own fields and those it
   * inherits from Django's `AbstractUser`. There is no Firebase uid and no
   * photo URL column; the `User` rows above carry both, as the Firebase
   * sign-in code expects.
   */
  const UserColumns: set<string> := {
    "id", "password", "last_login", "is_superuser", "username", "first_name", "last_name",
    "email", "is_staff", "is_active", "date_joined",
    "phone_number", "date_of_birth", "city", "country",
    "data_sharing_consent", "location_tracking_consent", "analytics_consent", "marketing_consent",
    "is_active_tracker", "preferred_language", "timezone", "created_at", "updated_at", "last_activity"}

  /**
   * A row as the database creates it at `now`: active, no usable password
   * and every consent flag at its default, False.
   */
  function NewUser(id: nat, username: string, email: string, now: Instant): (u: User)
    ensures u.id == id && u.username == username && u.email == email
    ensures !u.dataSharingConsent && !u.locationTrackingConsent && !u.analyticsConsent && !u.marketingConsent
    ensures !HasBasicConsent(u)
    ensures u.isActive && u.password.None? && u.firebaseUid == [] && u.lastActivity == Some(now)
  {
    User(id, username, email, "", "", "", "", "", None, true, false, false, false, false, Some(now))
  }

  /** `first last` with the surrounding whitespace removed. */
  function FullName(u: User): (r: string)
    ensures r == [] || (!IsSpace(r[0]) && !IsSpace(r[|r| - 1]))
  {
    Trim(u.firstName + " " + u.lastName)
  }

  /** An empty first and last name give an empty full name, and two plain names are joined by one space. */
  lemma FullNameParts(u: User)
    ensures u.firstName == [] && u.lastName == [] ==> FullName(u) == []
    ensures u.firstName != [] && !IsSpace(u.firstName[0]) && u.lastName != [] && !IsSpace(u.lastName[|u.lastName| - 1]) ==>
      FullName(u) == u.firstName + " " + u.lastName
  {
    var s := u.firstName + " " + u.lastName;
    if u.firstName == [] && u.lastName == [] {
      assert s == " ";
      assert TrimStart(s) == TrimStart(s[1..]);
    }
    if u.firstName != [] && !IsSpace(u.firstName[0]) && u.lastName != [] && !IsSpace(u.lastName[|u.lastName| - 1]) {
      assert s[0] == u.firstName[0] && s[|s| - 1] == u.lastName[|u.lastName| - 1];
      assert TrimStart(s) == s;
    }
  }

  /** The consent the app needs to work at all: location tracking. */
  predicate HasBasicConsent(u: User)
  {
    u.locationTrackingConsent
  }

  /** `update_last_activity`: the activity time becomes `now` and nothing else changes. */
  function UpdateLastActivity(u: User, now: Instant): (r: User)
    ensures r.lastActivity == Some(now)
    ensures r.(lastActivity := u.lastActivity) == u
  {
    u.(lastActivity := Some(now))
  }

  /** The four consent flags of a user. */
  datatype ConsentField = DataSharing | LocationTracking | Analytics | Marketing
  {
    /** The model field's name. */
    function FieldName(): string
    {
      match this
      case DataSharing => "data_sharing_consent"
      case LocationTracking => "location_tracking_consent"
      case Analytics => "analytics_consent"
      case Marketing => "marketing_consent"
    }

    /** The consent type a log row records: the field name without `_consent`. */
    function ConsentType(): (r: string)
      ensures FieldName() == r + "_consent"
    {
      match this
      case DataSharing => "data_sharing"
      case LocationTracking => "location_tracking"
      case Analytics => "analytics"
      case Marketing => "marketing"
    }
  }

  function Consent(u: User, f: ConsentField): bool
  {
    match f
    case DataSharing => u.dataSharingConsent
    case LocationTracking => u.locationTrackingConsent
    case Analytics => u.analyticsConsent
    case Marketing => u.marketingConsent
  }

  /** `setattr(user, field, value)` on one consent flag; every other field keeps its value. */
  function WithConsent(u: User, f: ConsentField, value: bool): (r: User)
    ensures Consent(r, f) == value
    ensures forall g :: g != f ==> Consent(r, g) == Consent(u, g)
    ensures r.(dataSharingConsent := u.dataSharingConsent, locationTrackingConsent := u.locationTrackingConsent,
               analyticsConsent := u.analyticsConsent, marketingConsent := u.marketingConsent) == u
  {
    match f
    case DataSharing => u.(dataSharingConsent := value)
    case LocationTracking => u.(locationTrackingConsent := value)
    case Analytics => u.(analyticsConsent := value)
    case Marketing => u.(marketingConsent := value)
  }

  /** One logged change of a consent flag. */
  datatype ConsentLog = ConsentLog(userId: nat, consentType: string, granted: bool, ipAddress: Option<string>, userAgent: string)

  function Action(granted: bool): string
  {
    if granted then "granted" else "revoked"
  }

  /** A log row's text: `<email> granted <type> consent`, or `revoked` when the consent was withdrawn. */
  function ConsentLogText(log: ConsentLog, email: string): (r: string)
    ensures |r| > |email| + 8 && StartsWith(r, email + " ")
    ensures r[|email| + 1..|email| + 8] == (if log.granted then "granted" else "revoked")
    ensures r[|email| + 8..] == " " + log.consentType + " consent"
  {
    var head, action, tail := email + " ", Action(log.granted), " " + log.consentType + " consent";
    assert |head| == |email| + 1 && |action| == 7;
    var r := head + (action + tail);
    assert r[..|head|] == head && r[|head|..] == action + tail;
    assert (action + tail)[..7] == action && (action + tail)[7..] == tail;
    r
  }

  /** Two log rows that differ only in `granted` read differently. */
  lemma ConsentLogTextShowsAction(log: ConsentLog, email: string)
    ensures ConsentLogText(log, email) != ConsentLogText(log.(granted := !log.granted), email)
  {
    var a, b := ConsentLogText(log, email), ConsentLogText(log.(granted := !log.granted), email);
    assert a[|email| + 1..|email| + 8] != b[|email| + 1..|email| + 8];
  }

  // ---------------------------------------------------------------------
  // The users table
  // ---------------------------------------------------------------------

  /** Ids, emails and usernames are unique among the rows. */
  predicate UniqueUsers(users: seq<User>)
  {
    forall i, j :: 0 <= i < j < |users| ==>
      users[i].id != users[j].id && users[i].email != users[j].email && users[i].username != users[j].username
  }

  function Usernames(users: seq<User>): set<string>
  {
    set u | u in users :: u.username
  }

  function Emails(users: seq<User>): set<string>
  {
    set u | u in users :: u.email
  }

  /** The outcome of `User.objects.get(...)`: no row, one row (its index) or several rows. */
  datatype Lookup = NotFound | Found(index: nat) | Multiple

  /** The row whose email is `email`; emails are unique, so there is at most one. */
  function FindByEmail(users: seq<User>, email: string): (r: Option<nat>)
    ensures r.Some? ==> r.value < |users| && users[r.value].email == email
    ensures r.None? ==> email !in Emails(users)
  {
    if users == [] then None
    else if users[0].email == email then Some(0)
    else
      var rest := FindByEmail(users[1..], email);
      if rest.Some? then Some(rest.value + 1) else None
  }

  /** The indices of the rows whose Firebase uid is `uid`. */
  function UidMatches(users: seq<User>, uid: string): (r: seq<nat>)
    ensures forall k :: 0 <= k < |r| ==> r[k] < |users| && users[r[k]].firebaseUid == uid
    ensures forall i :: 0 <= i < |users| && users[i].firebaseUid == uid ==> i in r
  {
    if users == [] then []
    else
      var init := UidMatches(users[..|users| - 1], uid);
      if users[|users| - 1].firebaseUid == uid then init + [|users| - 1] else init
  }

  /** `User.objects.get(firebase_uid=uid)`. */
  function FindByUid(users: seq<User>, uid: string): (r: Lookup)
    ensures r.NotFound? <==> forall i :: 0 <= i < |users| ==> users[i].firebaseUid != uid
    ensures r.Found? ==>
      r.index < |users| && users[r.index].firebaseUid == uid &&
      (forall i :: 0 <= i < |users| && i != r.index ==> users[i].firebaseUid != uid)
  {
    var m := UidMatches(users, uid);
    if |m| == 0 then NotFound
    else if |m| == 1 then
      assert forall i :: 0 <= i < |users| && users[i].firebaseUid == uid ==> i == m[0];
      Found(m[0])
    else
      assert m[0] != m[1] || m[0] == m[1];
      Multiple
  }

  /** The row whose id is `id`. */
  function FindById(users: seq<User>, id: nat): (r: Option<nat>)
    ensures r.Some? ==> r.value < |users| && users[r.value].id == id
    ensures r.None? ==> forall i :: 0 <= i < |users| ==> users[i].id != id
  {
    if users == [] then None
    else if users[0].id == id then Some(0)
    else
      var rest := FindById(users[1..], id);
      if rest.Some? then Some(rest.value + 1) else None
  }

  /** With unique ids, the lookup by a row's id finds that row. */
  lemma FindByIdUnique(users: seq<User>, k: nat)
    requires UniqueUsers(users) && k < |users|
    ensures FindById(users, users[k].id) == Some(k)
  {
    var r := FindById(users, users[k].id);
    assert r.Some?;
    assert r.value == k;
  }

  /** Rewriting a row keeps the table's keys unique when its id, email and username stay the same. */
  lemma RewriteKeepsUnique(users: seq<User>, i: nat, u: User)
    requires UniqueUsers(users) && i < |users|
    requires u.id == users[i].id && u.email == users[i].email && u.username == users[i].username
    ensures UniqueUsers(users[i := u])
  {
  }

  /** Appending a row with a new id, email and username keeps the keys unique. */
  lemma AppendKeepsUnique(users: seq<User>, u: User)
    requires UniqueUsers(users)
    requires forall i :: 0 <= i < |users| ==> users[i].id != u.id
    requires u.email !in Emails(users) && u.username !in Usernames(users)
    ensures UniqueUsers(users + [u])
  {
    forall i | 0 <= i < |users|
      ensures users[i].email != u.email && users[i].username != u.username
    {
      assert users[i] in users;
    }
  }

  // ---------------------------------------------------------------------
  // Usernames for new accounts
  // ---------------------------------------------------------------------

  /** The `k`-th username tried for `base`: `base` itself, then `base1`, `base2`, ... */
  function Candidate(base: string, k: nat): string
  {
    if k == 0 then base else base + NatToString(k)
  }

  /** Different attempts try different names. */
  lemma CandidatesDistinct(base: string, j: nat, k: nat)
    requires j != k
    ensures Candidate(base, j) != Candidate(base, k)
  {
    if j != 0 && k != 0 && Candidate(base, j) == Candidate(base, k) {
      assert NatToString(j) == Candidate(base, j)[|base|..];
      assert NatToString(k) == Candidate(base, k)[|base|..];
      NatToStringInjective(j, k);
    }
  }

  /** `username` is the first candidate for `base` that is not taken: every earlier one is. */
  ghost predicate FirstFree(base: string, taken: set<string>, username: string)
  {
    username !in taken &&
    exists k: nat :: username == Candidate(base, k) && forall j: nat :: j < k ==> Candidate(base, j) in taken
  }

  /** Only one username is the first free one, so the loop's result is determined. */
  lemma FirstFreeUnique(base: string, taken: set<string>, u: string, v: string)
    requires FirstFree(base, taken, u) && FirstFree(base, taken, v)
    ensures u == v
  {
    var ku: nat :| u == Candidate(base, ku) && forall j: nat :: j < ku ==> Candidate(base, j) in taken;
    var kv: nat :| v == Candidate(base, kv) && forall j: nat :: j < kv ==> Candidate(base, j) in taken;
    assert ku >= kv;
    assert kv >= ku;
  }

  /**
   * The username loop: `base`, then `base1`, `base2`, ... until a name
   * nobody has. The result is free, and every earlier attempt was taken.
   * The loop ends because the attempts are all different and only finitely
   * many names are taken.
   */
  method UniqueUsername(base: string, taken: set<string>) returns (username: string)
    ensures FirstFree(base, taken, username)
  {
    username := base;
    var counter: nat := 1;
    ghost var tried: set<string> := {};
    while username in taken
      invariant username == Candidate(base, counter - 1)
      invariant counter >= 1
      invariant forall j: nat :: j < counter - 1 ==> Candidate(base, j) in taken
      invariant tried <= taken && |tried| == counter - 1
      invariant forall t, k: nat :: t in tried && k >= counter - 1 ==> t != Candidate(base, k)
      decreases |taken| - |tried|
    {
      assert username !in tried;
      forall t, k: nat | t in tried + {username} && k >= counter
        ensures t != Candidate(base, k)
      {
        if t == username {
          CandidatesDistinct(base, counter - 1, k);
        }
      }
      SubsetSize(tried + {username}, taken);
      tried := tried + {username};
      username := base + NatToString(counter);
      counter := counter + 1;
    }
    assert forall j: nat :: j < counter - 1 ==> Candidate(base, j) in taken;
  }

  /** The users table with the profile and settings rows created beside it and the consent log. */
  class UserTable {
    var users: seq<User>
    // ids of the users that have a profile row, and a settings row
    var profiles: seq<nat>
    var settings: seq<nat>
    var consentLogs: seq<ConsentLog>
    var nextId: nat

    /** Keys are unique and every id is below the next free one. */
    ghost predicate Valid()
      reads this
    {
      UniqueUsers(users) && forall i :: 0 <= i < |users| ==> users[i].id < nextId
    }

    constructor()
      ensures Valid()
      ensures users == [] && profiles == [] && settings == [] && consentLogs == []
    {
      users, profiles, settings, consentLogs := [], [], [], [];
      nextId := 0;
    }

    /** Saves row `i` again, with the same id, email and username; nothing else changes. */
    method Rewrite(i: nat, u: User)
      requires Valid() && i < |users|
      requires u.id == users[i].id && u.email == users[i].email && u.username == users[i].username
      modifies this
      ensures Valid()
      ensures users == old(users)[i := u] && users[i] == u
      ensures profiles == old(profiles) && settings == old(settings) && consentLogs == old(consentLogs)
      ensures nextId == old(nextId)
    {
      RewriteKeepsUnique(users, i, u);
      users := users[i := u];
    }

    /** Inserts a row under the next free id; its email and username must be new. */
    method Insert(u: User)
      requires Valid() && u.id == nextId
      requires u.email !in Emails(users) && u.username !in Usernames(users)
      modifies this
      ensures Valid()
      ensures users == old(users) + [u] && nextId == old(nextId) + 1
      ensures profiles == old(profiles) && settings == old(settings) && consentLogs == old(consentLogs)
    {
      AppendKeepsUnique(users, u);
      users := users + [u];
      nextId := nextId + 1;
    }
  }
}
