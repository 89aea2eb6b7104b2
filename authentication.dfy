/**
 * Firebase authentication for the REST API: where the ID token is read
 * from, how a verified token is turned into a user (by Firebase uid, then
 * by email, then by creating one), and the combination with session
 * authentication. Token verification is a parameter.
 */
module Authentication {
  import opened Common
  import opened AuthModels

  /** The parts of a request the authenticators read; an absent header is the empty string. */
  datatype Request = Request(path: string, authorization: string, firebaseHeader: string, queryToken: Option<string>)

  /** The claims of a verified ID token; a missing claim is the empty string. */
  datatype Claims = Claims(uid: string, email: string, name: string, picture: string, phoneNumber: string)

  /** What verifying an ID token gives: its claims or one of the SDK's errors. */
  datatype Verification = Verified(claims: Claims) | Expired | Revoked | InvalidToken | VerifyError

  type Verifier = string -> Verification

  /** No credentials, a user (with the token's claims when Firebase authenticated it), or a 401 with its message. */
  datatype AuthResult = Anonymous | Authenticated(user: User, claims: Option<Claims>) | Failed(message: string)

  // ---------------------------------------------------------------------
  // The token
  // ---------------------------------------------------------------------

  /** The second space-separated word of an `Authorization: Bearer ...` header (section 2.1 of RFC 6750). */
  function BearerToken(header: string): (r: string)
    requires StartsWith(header, "Bearer ")
    ensures ' ' !in r
  {
    UpTo(header[7..], ' ')
  }

  /**
   * The token: the Bearer header's second word, else a non-empty
   * `X-Firebase-Auth` header, else a non-empty `firebase_token` query
   * parameter. A Bearer header wins even when its token is empty.
   */
  function GetFirebaseToken(req: Request): (r: Option<string>)
    ensures r.Some? ==> r.value == [] ==> StartsWith(req.authorization, "Bearer ")
  {
    if StartsWith(req.authorization, "Bearer ") then Some(BearerToken(req.authorization))
    else if req.firebaseHeader != [] then Some(req.firebaseHeader)
    else if req.queryToken.Some? && req.queryToken.value != [] then req.queryToken
    else None
  }

  /**
   * The order of the sources: a well-formed Bearer header gives back its
   * token whatever else the request holds; without one, the custom header;
   * without both, the query parameter; otherwise no token.
   */
  lemma TokenPrecedence(path: string, auth: string, header: string, query: Option<string>, token: string)
    ensures ' ' !in token ==> GetFirebaseToken(Request(path, "Bearer " + token, header, query)) == Some(token)
    ensures !StartsWith(auth, "Bearer ") && header != [] ==>
      GetFirebaseToken(Request(path, auth, header, query)) == Some(header)
    ensures !StartsWith(auth, "Bearer ") && header == [] ==>
      GetFirebaseToken(Request(path, auth, header, query)) == (if query.Some? && query.value != [] then query else None)
  {
    var bearer := "Bearer " + token;
    assert StartsWith(bearer, "Bearer ");
    assert bearer[7..] == token;
  }

  // ---------------------------------------------------------------------
  // Finding or creating the user
  // ---------------------------------------------------------------------

  /**
   * Python's `name.split(' ', 1)`: the text before the first space and the
   * text after it; an empty name gives two empty parts.
   */
  function SplitName(name: string): (r: (string, string))
    ensures ' ' !in r.0
    ensures ' ' in name ==> name == r.0 + " " + r.1
    ensures ' ' !in name ==> r == (name, [])
  {
    var first := UpTo(name, ' ');
    if |first| < |name| then (first, name[|first| + 1..]) else (name, [])
  }

  /** The local part of an email address: the text before the first `@`. */
  function LocalPart(email: string): (r: string)
    ensures '@' !in r && StartsWith(email, r)
  {
    UpTo(email, '@')
  }

  /**
   * The row created for a new Firebase user: the split name, the token's
   * uid, phone and picture, and location-tracking and analytics consent
   * granted, data sharing and marketing not.
   */
  function FirebaseUser(id: nat, username: string, uid: string, email: string, claims: Claims, now: Instant): (u: User)
    ensures (u.firstName, u.lastName) == SplitName(claims.name)
    ensures u.locationTrackingConsent && u.analyticsConsent && !u.dataSharingConsent && !u.marketingConsent
    ensures HasBasicConsent(u)
    ensures u.id == id && u.username == username && u.email == email && u.firebaseUid == uid && u.isActive
  {
    var (first, last) := SplitName(claims.name);
    NewUser(id, username, email, now).(
      firstName := first, lastName := last, firebaseUid := uid, phoneNumber := claims.phoneNumber,
      photoUrl := claims.picture,
      locationTrackingConsent := true, analyticsConsent := true, dataSharingConsent := false, marketingConsent := false)
  }

  /**
   * How the lookup ends for a uid and an email, from the rows `before` to
   * the rows `after`: the one row with that uid, unchanged; else the row
   * with that email, which takes the uid; else a new row under the first
   * free username derived from the email. Several rows with the uid make
   * the lookup fail.
   */
  ghost predicate Resolution(before: seq<User>, nextId: nat, after: seq<User>, uid: string, email: string,
                             claims: Claims, now: Instant, user: Option<User>)
  {
    var byUid := FindByUid(before, uid);
    var byEmail := FindByEmail(before, email);
    (byUid.Multiple? ==> user.None? && after == before) &&
    (byUid.Found? ==> user == Some(before[byUid.index]) && after == before) &&
    (byUid.NotFound? && byEmail.Some? ==>
      user == Some(before[byEmail.value].(firebaseUid := uid)) && after == before[byEmail.value := user.value]) &&
    (byUid.NotFound? && byEmail.None? ==>
      user.Some? && after == before + [user.value] &&
      user.value == FirebaseUser(nextId, user.value.username, uid, email, claims, now) &&
      FirstFree(LocalPart(email), Usernames(before), user.value.username))
  }

  /**
   * `get_or_create_user_from_firebase`: the user for a verified uid and
   * email, as `Resolution` says.
   */
  method GetOrCreateUser(table: UserTable, uid: string, email: string, claims: Claims, now: Instant)
    returns (user: Option<User>)
    requires table.Valid()
    modifies table
    ensures table.Valid()
    ensures user.Some? ==> user.value in table.users && user.value.firebaseUid == uid
    ensures table.profiles == old(table.profiles) && table.settings == old(table.settings)
    ensures table.consentLogs == old(table.consentLogs)
    ensures Resolution(old(table.users), old(table.nextId), table.users, uid, email, claims, now, user)
  {
    var byUid := FindByUid(table.users, uid);
    if byUid.Multiple? {
      return None;
    }
    if byUid.Found? {
      return Some(table.users[byUid.index]);
    }
    var byEmail := FindByEmail(table.users, email);
    if byEmail.Some? {
      var i := byEmail.value;
      var updated := table.users[i].(firebaseUid := uid);
      table.Rewrite(i, updated);
      return Some(updated);
    }
    var username := UniqueUsername(LocalPart(email), Usernames(table.users));
    var created := FirebaseUser(table.nextId, username, uid, email, claims, now);
    table.Insert(created);
    user := Some(created);
  }

  /**
   * `get_or_create_user_from_firebase` against a `User` model whose
   * concrete columns are `columns`. Its first query filters on
   * `firebase_uid`: without that column the ORM raises FieldError, which
   * the handler at its end turns into None before anything is written;
   * with it, the lookup is GetOrCreateUser.
   */
  method GetOrCreateUserOn(columns: set<string>, table: UserTable, uid: string, email: string, claims: Claims, now: Instant)
    returns (user: Option<User>)
    requires table.Valid()
    modifies table
    ensures table.Valid()
    ensures table.profiles == old(table.profiles) && table.settings == old(table.settings)
    ensures table.consentLogs == old(table.consentLogs)
    ensures "firebase_uid" !in columns ==> user.None? && table.users == old(table.users)
    ensures "firebase_uid" in columns ==>
      (user.Some? ==> user.value in table.users && user.value.firebaseUid == uid) &&
      Resolution(old(table.users), old(table.nextId), table.users, uid, email, claims, now, user)
  {
    if "firebase_uid" !in columns {
      return None;
    }
    user := GetOrCreateUser(table, uid, email, claims, now);
  }

  /** `User` with the two columns the Firebase sign-in code writes added. */
  const UidColumns: set<string> := UserColumns + {"firebase_uid", "photo_url"}

  /** The declared model lacks the uid column; the extended one has it. */
  lemma UidColumnMissing()
    ensures "firebase_uid" !in UserColumns && "photo_url" !in UserColumns
    ensures "firebase_uid" in UidColumns
  {
  }

  // ---------------------------------------------------------------------
  // Authenticating a request
  // ---------------------------------------------------------------------

  /** The message of the 401 for each verification error. */
  function VerifyFailure(v: Verification): (r: string)
    requires !v.Verified?
    ensures v.VerifyError? <==> r == "Firebase authentication failed"
  {
    match v
    case Expired => "Firebase token expired"
    case Revoked => "Firebase token revoked"
    case InvalidToken => "Invalid Firebase token"
    case VerifyError => "Firebase authentication failed"
  }

  /**
   * A successful sign-in from the rows `before` to the rows `after`: the
   * user the lookup resolves to (the one row with the uid; else the row
   * with the email, taking the uid; else a new row under a free username),
   * stamped with `now` and saved in its place.
   */
  ghost predicate SignedInAs(before: seq<User>, nextId: nat, after: seq<User>, claims: Claims, now: Instant, user: User)
  {
    var byUid := FindByUid(before, claims.uid);
    var byEmail := FindByEmail(before, claims.email);
    !byUid.Multiple? &&
    (byUid.Found? ==>
      user == UpdateLastActivity(before[byUid.index], now) && after == before[byUid.index := user]) &&
    (byUid.NotFound? && byEmail.Some? ==>
      user == UpdateLastActivity(before[byEmail.value].(firebaseUid := claims.uid), now) &&
      after == before[byEmail.value := user]) &&
    (byUid.NotFound? && byEmail.None? ==>
      user == FirebaseUser(nextId, user.username, claims.uid, claims.email, claims, now) &&
      after == before + [user] && FirstFree(LocalPart(claims.email), Usernames(before), user.username))
  }

  /**
   * The part of `FirebaseAuthentication.authenticate` after verification,
   * against a `User` model with the columns `columns`. A token without uid
   * or email, or a failed lookup, gives a 401 reading "Firebase
   * authentication failed", because the error raised inside the `try` is
   * caught by its last handler. Otherwise the resolved user, stamped with
   * `now`, is authenticated with the token's claims; with the uid column
   * that happens exactly when no two rows share the uid.
   */
  method SignIn(columns: set<string>, table: UserTable, claims: Claims, now: Instant) returns (r: AuthResult)
    requires table.Valid()
    modifies table
    ensures table.Valid()
    ensures table.profiles == old(table.profiles) && table.settings == old(table.settings)
    ensures table.consentLogs == old(table.consentLogs)
    ensures claims.uid == [] || claims.email == [] || "firebase_uid" !in columns ==>
      r == Failed("Firebase authentication failed")
    ensures !r.Authenticated? ==> r == Failed("Firebase authentication failed") && table.users == old(table.users)
    ensures "firebase_uid" in columns && claims.uid != [] && claims.email != [] ==>
      (r.Authenticated? <==> !FindByUid(old(table.users), claims.uid).Multiple?)
    ensures r.Authenticated? ==>
      r.claims == Some(claims) && r.user.firebaseUid == claims.uid && r.user in table.users &&
      SignedInAs(old(table.users), old(table.nextId), table.users, claims, now, r.user)
  {
    if claims.uid == [] || claims.email == [] {
      return Failed("Firebase authentication failed");
    }
    var user := GetOrCreateUserOn(columns, table, claims.uid, claims.email, claims, now);
    if user.None? {
      return Failed("Firebase authentication failed");
    }
    ghost var mid := table.users;
    ghost var k :| 0 <= k < |mid| && mid[k] == user.value;
    var i := FindById(table.users, user.value.id);
    if i.None? {
      assert false;
      return Failed("Firebase authentication failed");
    }
    assert i.value == k;
    var active := UpdateLastActivity(table.users[i.value], now);
    table.Rewrite(i.value, active);
    r := Authenticated(active, Some(claims));
    SignInResolves(old(table.users), old(table.nextId), mid, k, claims, now, user.value);
  }

  /** The row the lookup resolved to, stamped and saved back at its index, is a successful sign-in. */
  lemma SignInResolves(before: seq<User>, nextId: nat, mid: seq<User>, k: nat, claims: Claims, now: Instant, u: User)
    requires UniqueUsers(before) && UniqueUsers(mid)
    requires Resolution(before, nextId, mid, claims.uid, claims.email, claims, now, Some(u))
    requires k < |mid| && mid[k] == u
    ensures SignedInAs(before, nextId, mid[k := UpdateLastActivity(u, now)], claims, now, UpdateLastActivity(u, now))
  {
    var byUid := FindByUid(before, claims.uid);
    var byEmail := FindByEmail(before, claims.email);
    if byUid.Found? {
      assert mid == before && before[byUid.index] == u;
      assert k == byUid.index;
    } else if byEmail.Some? {
      assert mid[byEmail.value] == u;
      assert k == byEmail.value;
    } else {
      assert mid[|before|] == u;
      assert k == |before|;
    }
  }

  /**
   * `FirebaseAuthentication.authenticate` against a `User` model with the
   * columns `columns`. Without the SDK or without a token: no credentials.
   * A verification error: a 401 with its message. A verified token: as
   * `SignIn` says.
   */
  method Authenticate(columns: set<string>, table: UserTable, req: Request, sdkAvailable: bool, verify: Verifier, now: Instant)
    returns (r: AuthResult)
    requires table.Valid()
    modifies table
    ensures table.Valid()
    ensures table.profiles == old(table.profiles) && table.settings == old(table.settings)
    ensures table.consentLogs == old(table.consentLogs)
    ensures !r.Authenticated? ==> table.users == old(table.users)
    ensures !sdkAvailable || GetFirebaseToken(req).None? || GetFirebaseToken(req).value == [] ==> r == Anonymous
    ensures sdkAvailable && GetFirebaseToken(req).Some? && GetFirebaseToken(req).value != [] ==> !r.Anonymous?
    ensures sdkAvailable && GetFirebaseToken(req).Some? && GetFirebaseToken(req).value != [] ==>
      var v := verify(GetFirebaseToken(req).value);
      (!v.Verified? ==> r == Failed(VerifyFailure(v))) &&
      (v.Verified? && (v.claims.uid == [] || v.claims.email == [] || "firebase_uid" !in columns) ==>
        r == Failed("Firebase authentication failed")) &&
      (v.Verified? && v.claims.uid != [] && v.claims.email != [] && "firebase_uid" in columns ==>
        (r.Authenticated? <==> !FindByUid(old(table.users), v.claims.uid).Multiple?)) &&
      (r.Authenticated? ==>
        v.Verified? && r.claims == Some(v.claims) && r.user in table.users &&
        SignedInAs(old(table.users), old(table.nextId), table.users, v.claims, now, r.user))
  {
    if !sdkAvailable {
      return Anonymous;
    }
    var token := GetFirebaseToken(req);
    if token.None? || token.value == [] {
      return Anonymous;
    }
    var v := verify(token.value);
    if !v.Verified? {
      return Failed(VerifyFailure(v));
    }
    r := SignIn(columns, table, v.claims, now);
  }

  /**
   * Finding: the authenticator as written, against `User` as declared.
   * The uid lookup raises, so every verified token is refused with
   * "Firebase authentication failed" and no user changes.
   */
  method AuthenticateAsWritten(table: UserTable, req: Request, verify: Verifier, now: Instant) returns (r: AuthResult)
    requires table.Valid()
    modifies table
    ensures table.Valid() && table.users == old(table.users)
    ensures GetFirebaseToken(req).Some? && GetFirebaseToken(req).value != [] &&
            verify(GetFirebaseToken(req).value).Verified? ==>
      r == Failed("Firebase authentication failed")
  {
    UidColumnMissing();
    r := Authenticate(UserColumns, table, req, true, verify, now);
  }

  /**
   * The authenticator with the uid column it expects: a verified token
   * with a uid and an email authenticates the user it resolves to, unless
   * several rows share the uid.
   */
  method AuthenticateWithUidColumn(table: UserTable, req: Request, verify: Verifier, now: Instant) returns (r: AuthResult)
    requires table.Valid()
    modifies table
    ensures table.Valid()
    ensures GetFirebaseToken(req).Some? && GetFirebaseToken(req).value != [] ==>
      var v := verify(GetFirebaseToken(req).value);
      v.Verified? && v.claims.uid != [] && v.claims.email != [] && !FindByUid(old(table.users), v.claims.uid).Multiple? ==>
        r.Authenticated? && r.claims == Some(v.claims) &&
        SignedInAs(old(table.users), old(table.nextId), table.users, v.claims, now, r.user)
  {
    UidColumnMissing();
    r := Authenticate(UidColumns, table, req, true, verify, now);
  }

  /** What session authentication gives: a user, nothing, or an error. */
  datatype SessionResult = SessionUser(user: User) | NoSession | SessionError

  /**
   * `MultipleAuthentication.authenticate`: a Firebase user first; a
   * Firebase failure propagates; otherwise the session's user, with a
   * session error swallowed; otherwise no credentials.
   */
  function Combine(firebase: AuthResult, session: SessionResult): (r: AuthResult)
    ensures firebase.Failed? || firebase.Authenticated? ==> r == firebase
    ensures firebase.Anonymous? && session.SessionUser? ==> r == Authenticated(session.user, None)
    ensures firebase.Anonymous? && !session.SessionUser? ==> r == Anonymous
    ensures r.Failed? ==> firebase.Failed?
  {
    if !firebase.Anonymous? then firebase
    else if session.SessionUser? then Authenticated(session.user, None)
    else Anonymous
  }

  /**
   * Tries Firebase when the SDK is there, then the session: the result is
   * `Combine` of the Firebase outcome and the session's, so a request
   * carrying a token is decided by Firebase alone.
   */
  method MultipleAuthenticate(columns: set<string>, table: UserTable, req: Request, sdkAvailable: bool, verify: Verifier,
                              session: SessionResult, now: Instant)
    returns (r: AuthResult)
    requires table.Valid()
    modifies table
    ensures table.Valid()
    ensures !r.Authenticated? || r.claims.None? ==> table.users == old(table.users)
    ensures !sdkAvailable || GetFirebaseToken(req).None? || GetFirebaseToken(req).value == [] ==>
      r == Combine(Anonymous, session)
    ensures sdkAvailable && GetFirebaseToken(req).Some? && GetFirebaseToken(req).value != [] ==>
      var v := verify(GetFirebaseToken(req).value);
      (!v.Verified? ==> r == Failed(VerifyFailure(v))) &&
      (v.Verified? && (v.claims.uid == [] || v.claims.email == [] || "firebase_uid" !in columns) ==>
        r == Failed("Firebase authentication failed")) &&
      (v.Verified? && v.claims.uid != [] && v.claims.email != [] && "firebase_uid" in columns ==>
        (r.Authenticated? <==> !FindByUid(old(table.users), v.claims.uid).Multiple?)) &&
      (r.Authenticated? ==>
        v.Verified? && r.claims == Some(v.claims) &&
        SignedInAs(old(table.users), old(table.nextId), table.users, v.claims, now, r.user))
    ensures r.Authenticated? && r.claims.None? ==> session.SessionUser? && r.user == session.user
  {
    var firebase := Anonymous;
    if sdkAvailable {
      firebase := Authenticate(columns, table, req, sdkAvailable, verify, now);
    }
    r := Combine(firebase, session);
  }
}
