/**
 * The authentication middleware: Firebase sign-in for every request
 * outside the skipped prefixes (errors swallowed, the user looked up by
 * email only), the throttled activity stamp, and the JSON error response
 * for unhandled exceptions under `/api/`.
 */
module AuthMiddleware {
  import opened Common
  import opened AuthModels
  import opened Authentication

  /** The path prefixes that bypass Firebase authentication. */
  const SkipPaths: seq<string> := ["/admin/", "/api/docs/", "/api/schema/", "/health/", "/static/", "/media/"]

  predicate Skipped(path: string)
  {
    exists p :: p in SkipPaths && StartsWith(path, p)
  }

  /** API paths other than the documentation and schema are authenticated. */
  lemma ApiPathsAuthenticated(path: string)
    requires StartsWith(path, "/api/") && !StartsWith(path, "/api/docs/") && !StartsWith(path, "/api/schema/")
    ensures !Skipped(path)
  {
    assert path[1] == "/api/"[1] && path[2] == "/api/"[2];
  }

  /** The token: the Bearer header's second word, else the `X-Firebase-Auth` header; no query parameter. */
  function MiddlewareToken(authorization: string, firebaseHeader: string): (r: Option<string>)
    ensures r.Some? ==> r.value != []
  {
    if StartsWith(authorization, "Bearer ") then
      (if BearerToken(authorization) != [] then Some(BearerToken(authorization)) else None)
    else if firebaseHeader != [] then Some(firebaseHeader)
    else None
  }

  /**
   * The middleware reads the same token as the REST authenticator whenever
   * the request has no query token, and never one from the query.
   */
  lemma TokenAsRestAuthenticator(req: Request)
    ensures var t := GetFirebaseToken(req.(queryToken := None));
      MiddlewareToken(req.authorization, req.firebaseHeader) == (if t.Some? && t.value != [] then t else None)
    ensures req.authorization == [] && req.firebaseHeader == [] ==> MiddlewareToken(req.authorization, req.firebaseHeader).None?
  {
  }

  /** The row created for a new user: the split name, the uid and the picture; tracking and analytics consent granted. */
  function MiddlewareUser(id: nat, username: string, uid: string, email: string, name: string, picture: string, now: Instant)
    : (u: User)
    ensures (u.firstName, u.lastName) == SplitName(name)
    ensures u.locationTrackingConsent && u.analyticsConsent && !u.dataSharingConsent && !u.marketingConsent
    ensures u.id == id && u.username == username && u.email == email && u.firebaseUid == uid && u.phoneNumber == []
  {
    var (first, last) := SplitName(name);
    NewUser(id, username, email, now).(
      firstName := first, lastName := last, firebaseUid := uid, photoUrl := picture,
      locationTrackingConsent := true, analyticsConsent := true)
  }

  /**
   * The middleware's get-or-create against a `User` model with the
   * columns `columns`: the row with the email, which takes the uid only
   * when it has none; else a new row under the first free username derived
   * from the email. Without a `firebase_uid` column both paths raise
   * before writing (`save(update_fields=['firebase_uid'])` on a model
   * without the field, since `hasattr` finds no uid; `create_user` with an
   * unknown keyword), and the handler returns None.
   */
  method GetOrCreateByEmail(columns: set<string>, table: UserTable, uid: string, email: string, name: string,
                            picture: string, now: Instant)
    returns (user: Option<User>)
    requires table.Valid()
    modifies table
    ensures table.Valid()
    ensures table.profiles == old(table.profiles) && table.settings == old(table.settings)
    ensures table.consentLogs == old(table.consentLogs)
    ensures "firebase_uid" !in columns ==> user.None? && table.users == old(table.users)
    ensures "firebase_uid" in columns ==> user.Some? && user.value in table.users && user.value.email == email
    ensures "firebase_uid" in columns && FindByEmail(old(table.users), email).Some? ==>
      var old_user := old(table.users)[FindByEmail(old(table.users), email).value];
      user == Some(if old_user.firebaseUid == [] then old_user.(firebaseUid := uid) else old_user) &&
      table.users == old(table.users)[FindByEmail(old(table.users), email).value := user.value]
    ensures "firebase_uid" in columns && FindByEmail(old(table.users), email).None? ==>
      table.users == old(table.users) + [user.value] &&
      user.value == MiddlewareUser(old(table.nextId), user.value.username, uid, email, name, picture, now) &&
      FirstFree(LocalPart(email), Usernames(old(table.users)), user.value.username)
  {
    var byEmail := FindByEmail(table.users, email);
    if byEmail.Some? {
      var i := byEmail.value;
      var found := table.users[i];
      if "firebase_uid" !in columns {
        return None;
      }
      if found.firebaseUid == [] {
        found := found.(firebaseUid := uid);
      }
      table.Rewrite(i, found);
      return Some(found);
    }
    if "firebase_uid" !in columns {
      return None;
    }
    var username := UniqueUsername(LocalPart(email), Usernames(table.users));
    var created := MiddlewareUser(table.nextId, username, uid, email, name, picture, now);
    table.Insert(created);
    user := Some(created);
  }

  /**
   * Whether the middleware signs a request in: the Firebase app is ready,
   * a token came, it verifies, its claims carry a uid and an email, and
   * the model has the uid column its get-or-create writes.
   */
  predicate SignsIn(columns: set<string>, req: Request, appReady: bool, verify: Verifier)
  {
    && appReady
    && MiddlewareToken(req.authorization, req.firebaseHeader).Some?
    && var v := verify(MiddlewareToken(req.authorization, req.firebaseHeader).value);
       v.Verified? && v.claims.uid != [] && v.claims.email != [] && "firebase_uid" in columns
  }

  /**
   * The users `after` and the signed-in row `u` once the middleware has
   * signed in the claims `c`: the row with the email, taking the uid when
   * it has none, is rewritten in place; else a new row is appended under
   * the first free username. Either way the row is stamped with `now`.
   */
  ghost predicate SignedIn(before: seq<User>, nextId: nat, c: Claims, now: Instant, after: seq<User>, u: User)
  {
    var e := FindByEmail(before, c.email);
    if e.Some? then
      var row := before[e.value];
      u == UpdateLastActivity(if row.firebaseUid == [] then row.(firebaseUid := c.uid) else row, now) &&
      after == before[e.value := u]
    else
      u == UpdateLastActivity(MiddlewareUser(nextId, u.username, c.uid, c.email, c.name, c.picture, now), now) &&
      FirstFree(LocalPart(c.email), Usernames(before), u.username) &&
      after == before + [u]
  }

  /**
   * `authenticate_firebase_user` against a `User` model with the columns
   * `columns`: without the Firebase app or a token, when verification
   * fails or the claims lack uid or email, or when the lookup fails,
   * nothing happens and None is returned; otherwise the user, stamped
   * with `now`.
   */
  method AuthenticateFirebaseUser(columns: set<string>, table: UserTable, req: Request, appReady: bool,
                                  verify: Verifier, now: Instant)
    returns (user: Option<User>)
    requires table.Valid()
    modifies table
    ensures table.Valid()
    ensures table.profiles == old(table.profiles) && table.settings == old(table.settings)
    ensures table.consentLogs == old(table.consentLogs)
    ensures user.Some? <==> SignsIn(columns, req, appReady, verify)
    ensures user.None? ==> table.users == old(table.users)
    ensures user.Some? ==>
      var c := verify(MiddlewareToken(req.authorization, req.firebaseHeader).value).claims;
      SignedIn(old(table.users), old(table.nextId), c, now, table.users, user.value)
  {
    if !appReady {
      return None;
    }
    var token := MiddlewareToken(req.authorization, req.firebaseHeader);
    if token.None? {
      return None;
    }
    var v := verify(token.value);
    if !v.Verified? || v.claims.uid == [] || v.claims.email == [] {
      return None;
    }
    var found := GetOrCreateByEmail(columns, table, v.claims.uid, v.claims.email, v.claims.name, v.claims.picture, now);
    if found.None? {
      return None;
    }
    ghost var e := FindByEmail(old(table.users), v.claims.email);
    ghost var k := if e.Some? then e.value else |old(table.users)|;
    assert table.users[k] == found.value;
    FindByIdUnique(table.users, k);
    var i := FindById(table.users, found.value.id);
    var active := UpdateLastActivity(table.users[i.value], now);
    table.Rewrite(i.value, active);
    user := Some(active);
  }

  /**
   * Finding: the middleware as written, against `User` as declared. Both
   * paths of its get-or-create raise, so it never authenticates anyone and
   * never changes a user.
   */
  method AuthenticateFirebaseUserAsWritten(table: UserTable, req: Request, appReady: bool, verify: Verifier, now: Instant)
    returns (user: Option<User>)
    requires table.Valid()
    modifies table
    ensures table.Valid()
    ensures user.None? && table.users == old(table.users)
  {
    UidColumnMissing();
    user := AuthenticateFirebaseUser(UserColumns, table, req, appReady, verify, now);
  }

  /**
   * The middleware with the uid column it expects: a verified token with
   * a uid and an email always signs its user in.
   */
  method AuthenticateFirebaseUserWithUidColumn(table: UserTable, req: Request, verify: Verifier, now: Instant)
    returns (user: Option<User>)
    requires table.Valid()
    modifies table
    ensures table.Valid()
    ensures MiddlewareToken(req.authorization, req.firebaseHeader).Some? ==>
      var v := verify(MiddlewareToken(req.authorization, req.firebaseHeader).value);
      v.Verified? && v.claims.uid != [] && v.claims.email != [] ==>
        user.Some? && user.value.email == v.claims.email && user.value.lastActivity == Some(now)
  {
    UidColumnMissing();
    user := AuthenticateFirebaseUser(UidColumns, table, req, true, verify, now);
  }

  /**
   * The middleware's entry point: skipped paths go straight to the view
   * with the request untouched; every other request is authenticated first.
   */
  method Call(columns: set<string>, table: UserTable, req: Request, appReady: bool, verify: Verifier, now: Instant)
    returns (user: Option<User>)
    requires table.Valid()
    modifies table
    ensures table.Valid()
    ensures table.profiles == old(table.profiles) && table.settings == old(table.settings)
    ensures table.consentLogs == old(table.consentLogs)
    ensures Skipped(req.path) ==> user.None? && table.users == old(table.users)
    ensures !Skipped(req.path) ==> (user.Some? <==> SignsIn(columns, req, appReady, verify))
    ensures user.None? ==> table.users == old(table.users)
    ensures user.Some? ==>
      var c := verify(MiddlewareToken(req.authorization, req.firebaseHeader).value).claims;
      SignedIn(old(table.users), old(table.nextId), c, now, table.users, user.value)
  {
    if Skipped(req.path) {
      return None;
    }
    user := AuthenticateFirebaseUser(columns, table, req, appReady, verify, now);
  }

  // ---------------------------------------------------------------------
  // Activity
  // ---------------------------------------------------------------------

  /** Five minutes, in seconds. */
  const ActivityInterval := 300

  /**
   * `update_user_activity`: the activity time is rewritten to `now` only
   * when it is unset or more than five minutes old.
   */
  function TrackActivity(u: User, now: Instant): (r: User)
    ensures r.(lastActivity := u.lastActivity) == u
    ensures u.lastActivity.None? || now - u.lastActivity.value > ActivityInterval ==> r.lastActivity == Some(now)
    ensures u.lastActivity.Some? && now - u.lastActivity.value <= ActivityInterval ==> r == u
  {
    if u.lastActivity.None? || now - u.lastActivity.value > ActivityInterval then UpdateLastActivity(u, now) else u
  }

  /** Two requests within five minutes of the stamp leave it alone. */
  lemma ActivityThrottled(u: User, now: Instant, later: Instant)
    requires u.lastActivity.Some? && u.lastActivity.value <= now <= later <= u.lastActivity.value + ActivityInterval
    ensures TrackActivity(TrackActivity(u, now), later) == u
  {
  }

  // ---------------------------------------------------------------------
  // Errors
  // ---------------------------------------------------------------------

  /** What the view did: answered with a status, or raised. */
  datatype ViewOutcome = Responded(status: int) | Raised

  /** What the client gets: the view's answer, the JSON 500, or the exception re-raised. */
  datatype Handled = PassThrough(status: int) | JsonError(status: int, error: string, message: string) | Reraised

  /** An exception becomes the JSON 500 under `/api/` and is re-raised elsewhere; answers pass through. */
  function HandleErrors(path: string, outcome: ViewOutcome): (r: Handled)
    ensures outcome.Responded? ==> r == PassThrough(outcome.status)
    ensures r.Reraised? <==> outcome.Raised? && !StartsWith(path, "/api/")
    ensures r.JsonError? <==> outcome.Raised? && StartsWith(path, "/api/")
    ensures r.JsonError? ==> r.status == 500
  {
    match outcome
    case Responded(status) => PassThrough(status)
    case Raised =>
      if StartsWith(path, "/api/") then JsonError(500, "Internal server error", "An unexpected error occurred")
      else Reraised
  }
}
