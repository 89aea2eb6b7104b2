/**
 * The client's authentication service: the configuration guard, the
 * error-code table, the profile documents written beside Firebase sign-up
 * and sign-in (best-effort: a failed write never fails the sign-in), and
 * the profile sync sent to the backend after a social sign-in. The
 * Firebase calls are parameters that say how each call ended.
 */
module AuthService {
  import opened Common
  import Authentication

  /** An error thrown to the caller, identified by its code. */
  datatype AuthError = AuthError(code: string, message: string)

  /** `ensureFirebase`: an `auth/config-missing` error when the auth or the database handle is missing. */
  function EnsureFirebase(authReady: bool, dbReady: bool): (r: Option<AuthError>)
    ensures r.Some? <==> !authReady || !dbReady
    ensures r.Some? ==> r.value.code == "auth/config-missing"
  {
    if !authReady || !dbReady then Some(AuthError("auth/config-missing", "Authentication is not configured")) else None
  }

  // ---------------------------------------------------------------------
  // Error messages
  // ---------------------------------------------------------------------

  const GenericMessage := "An unexpected error occurred. Please try again."

  /** The codes with a message of their own. */
  const AuthMessages: map<string, string> := map[
    "auth/user-not-found" := "No user found with this email address.",
    "auth/wrong-password" := "Incorrect password.",
    "auth/email-already-in-use" := "This email address is already registered.",
    "auth/weak-password" := "Password should be at least 6 characters long.",
    "auth/invalid-email" := "Please enter a valid email address.",
    "auth/too-many-requests" := "Too many failed attempts. Please try again later.",
    "auth/network-request-failed" := "Network error. Please check your internet connection.",
    "auth/popup-closed-by-user" := "Sign-in cancelled. Please try again.",
    "auth/popup-blocked" := "Popup was blocked. Please allow popups and try again.",
    "auth/cancelled-popup-request" := "Sign-in cancelled. Please try again.",
    "auth/account-exists-with-different-credential" := "An account already exists with this email using a different sign-in method.",
    "auth/auth-domain-config-required" := "Authentication configuration error. Please contact support.",
    "auth/operation-not-allowed" := "This sign-in method is not enabled. Please contact support.",
    "auth/unauthorized-domain" := "This domain is not authorized for authentication. Please contact support.",
    "auth/invalid-credential" := "Invalid credentials. Please try again.",
    "auth/user-disabled" := "This account has been disabled. Please contact support.",
    "auth/config-missing" := "Authentication is not configured. Please try again later or contact support."
  ]

  /** `getAuthErrorMessage`: every code gets a message; the listed ones their own, the rest the generic one. */
  function AuthErrorMessage(code: string): (r: string)
    ensures r != []
    ensures code in AuthMessages ==> r == AuthMessages[code]
    ensures code !in AuthMessages ==> r == GenericMessage
  {
    if code in AuthMessages then AuthMessages[code] else GenericMessage
  }

  /** The generic message is given exactly to the codes without a message of their own. */
  lemma GenericOnlyForUnlisted(code: string)
    ensures AuthErrorMessage(code) == GenericMessage <==> code !in AuthMessages
  {
    if code in AuthMessages {
      assert AuthMessages[code] in AuthMessages.Values;
      assert GenericMessage !in AuthMessages.Values;
    }
  }

  /** The error the configuration guard throws is reported with the configuration message. */
  lemma ConfigMissingReported(authReady: bool, dbReady: bool)
    requires !authReady || !dbReady
    ensures AuthErrorMessage(EnsureFirebase(authReady, dbReady).value.code) ==
      "Authentication is not configured. Please try again later or contact support."
  {
  }

  // ---------------------------------------------------------------------
  // Profile documents
  // ---------------------------------------------------------------------

  /** A Firebase account as the SDK returns it; missing text fields are empty. */
  datatype Account = Account(uid: string, email: string, displayName: string, photoUrl: string)

  /** How a Firebase call ended: with a value, or by throwing an error code. */
  datatype Outcome<T> = Done(value: T) | Threw(code: string)

  datatype TravelStats = TravelStats(totalTrips: int, totalDistance: real, favoriteTransport: string, sustainabilityScore: int)

  /** The travel statistics of a new profile: no trips, no distance, no favourite and a sustainability score of 100. */
  const InitialStats := TravelStats(0, 0.0, "", 100)

  /** A user's profile document in the `users` collection. */
  datatype Profile = Profile(uid: string, email: string, displayName: string, photoUrl: string,
                             createdAt: Instant, lastLoginAt: Instant, travelStats: TravelStats)

  /** The document created for an account at `now`. */
  function NewProfile(account: Account, displayName: string, now: Instant): (p: Profile)
    ensures p.uid == account.uid && p.email == account.email && p.displayName == displayName
    ensures p.createdAt == now && p.lastLoginAt == now && p.travelStats == InitialStats
  {
    Profile(account.uid, account.email, displayName, account.photoUrl, now, now, InitialStats)
  }

  /** JavaScript's `a || b` on strings. */
  function OrElse(a: string, b: string): string
  {
    if a != [] then a else b
  }

  /** The result of a sign-in function: the account, or the error it rethrows. */
  datatype SignInResult = SignedIn(account: Account) | SignInFailed(code: string)

  /** The `users` collection of profile documents, by uid. */
  class ProfileStore {
    var docs: map<string, Profile>

    constructor()
      ensures docs == map[]
    {
      docs := map[];
    }

    /**
     * `signUpWithEmail`: the guard, the account creation and the display
     * name update can fail the sign-up; the profile write cannot, and
     * happens only when it succeeds (`writeOk`).
     */
    method SignUpWithEmail(authReady: bool, dbReady: bool, created: Outcome<Account>, displayName: string,
                           renamed: Outcome<()>, writeOk: bool, now: Instant)
      returns (r: SignInResult)
      modifies this
      ensures r.SignedIn? <==> !(!authReady || !dbReady) && created.Done? && (displayName == [] || renamed.Done?)
      ensures !authReady || !dbReady ==> r == SignInFailed("auth/config-missing")
      ensures r.SignedIn? ==>
        r.account == created.value.(displayName := OrElse(displayName, created.value.displayName)) &&
        docs == (if writeOk then old(docs)[r.account.uid := NewProfile(r.account, r.account.displayName, now)] else old(docs))
      ensures !r.SignedIn? ==> docs == old(docs)
    {
      var guard := EnsureFirebase(authReady, dbReady);
      if guard.Some? {
        return SignInFailed(guard.value.code);
      }
      if created.Threw? {
        return SignInFailed(created.code);
      }
      var account := created.value;
      if displayName != [] {
        if renamed.Threw? {
          return SignInFailed(renamed.code);
        }
        account := account.(displayName := displayName);
      }
      if writeOk {
        docs := docs[account.uid := NewProfile(account, OrElse(displayName, account.displayName), now)];
      }
      r := SignedIn(account);
    }

    /**
     * `signInWithEmail`: the last-login time of an existing profile is
     * merged in when the read and the write succeed; a missing profile is
     * not created, and a failed read or write does not fail the sign-in.
     */
    method SignInWithEmail(authReady: bool, dbReady: bool, signedIn: Outcome<Account>, readOk: bool, writeOk: bool,
                           now: Instant)
      returns (r: SignInResult)
      modifies this
      ensures r.SignedIn? <==> authReady && dbReady && signedIn.Done?
      ensures r.SignedIn? ==> r.account == signedIn.value
      ensures r.SignedIn? && readOk && writeOk && signedIn.value.uid in old(docs) ==>
        docs == old(docs)[signedIn.value.uid := old(docs)[signedIn.value.uid].(lastLoginAt := now)]
      ensures !(r.SignedIn? && readOk && writeOk && signedIn.value.uid in old(docs)) ==> docs == old(docs)
    {
      var guard := EnsureFirebase(authReady, dbReady);
      if guard.Some? {
        return SignInFailed(guard.value.code);
      }
      if signedIn.Threw? {
        return SignInFailed(signedIn.code);
      }
      var account := signedIn.value;
      if readOk && account.uid in docs && writeOk {
        docs := docs[account.uid := docs[account.uid].(lastLoginAt := now)];
      }
      r := SignedIn(account);
    }

    /**
     * The Google, Facebook and Twitter sign-ins: a missing profile is
     * created, an existing one gets its last-login time (each best-effort),
     * and the profile fields are offered to the backend.
     */
    method SignInWithProvider(authReady: bool, dbReady: bool, popup: Outcome<Account>, readOk: bool, writeOk: bool,
                              now: Instant)
      returns (r: SignInResult, sync: Option<ProfilePayload>)
      modifies this
      ensures r.SignedIn? <==> authReady && dbReady && popup.Done?
      ensures r.SignedIn? ==> r.account == popup.value && sync == SyncCall(popup.value.displayName, popup.value.photoUrl)
      ensures !r.SignedIn? ==> sync.None? && docs == old(docs)
      ensures r.SignedIn? && readOk && writeOk ==>
        var a := popup.value;
        docs == old(docs)[a.uid := if a.uid in old(docs) then old(docs)[a.uid].(lastLoginAt := now) else NewProfile(a, a.displayName, now)]
      ensures !(readOk && writeOk) ==> docs == old(docs)
    {
      var guard := EnsureFirebase(authReady, dbReady);
      if guard.Some? {
        return SignInFailed(guard.value.code), None;
      }
      if popup.Threw? {
        return SignInFailed(popup.code), None;
      }
      var account := popup.value;
      if readOk && writeOk {
        if account.uid !in docs {
          docs := docs[account.uid := NewProfile(account, account.displayName, now)];
        } else {
          docs := docs[account.uid := docs[account.uid].(lastLoginAt := now)];
        }
      }
      sync := SyncCall(account.displayName, account.photoUrl);
      r := SignedIn(account);
    }
  }

  // ---------------------------------------------------------------------
  // Backend profile sync
  // ---------------------------------------------------------------------

  /** The fields sent to the backend; an absent field is None. */
  datatype ProfilePayload = ProfilePayload(firstName: Option<string>, lastName: Option<string>, photoUrl: Option<string>)

  /** The display name split on spaces: the first part, and the other parts joined by single spaces. */
  function DisplayNameParts(display: string): (r: (string, string))
  {
    if display == [] then ([], [])
    else
      var parts := Split(display, ' ');
      (parts[0], Join(parts[1..], ' '))
  }

  /** The client splits a display name exactly as the backend splits a token's name. */
  lemma DisplayNameSplitAgrees(display: string)
    ensures DisplayNameParts(display) == Authentication.SplitName(display)
  {
    if display != [] {
      var first := UpTo(display, ' ');
      if |first| < |display| {
        var rest := display[|first| + 1..];
        assert Split(display, ' ') == [first] + Split(rest, ' ');
        assert Split(display, ' ')[1..] == Split(rest, ' ');
        JoinSplit(rest, ' ');
      }
    }
  }

  /** `Some(s)` for a non-empty `s`: a spread that adds the field only when it is truthy. */
  function IfPresent(s: string): (r: Option<string>)
    ensures r.Some? <==> s != []
    ensures r.Some? ==> r.value == s
  {
    if s != [] then Some(s) else None
  }

  /**
   * `syncProfileToBackend`: the payload holds only the non-empty fields,
   * and no call is made when it is empty.
   */
  function SyncCall(display: string, photoUrl: string): (r: Option<ProfilePayload>)
    ensures r.None? <==> DisplayNameParts(display) == ([], []) && photoUrl == []
    ensures r.Some? ==>
      r.value.firstName == IfPresent(DisplayNameParts(display).0) &&
      r.value.lastName == IfPresent(DisplayNameParts(display).1) &&
      r.value.photoUrl == IfPresent(photoUrl)
  {
    var (first, last) := DisplayNameParts(display);
    var payload := ProfilePayload(IfPresent(first), IfPresent(last), IfPresent(photoUrl));
    if payload == ProfilePayload(None, None, None) then None else Some(payload)
  }

  /** A one-word display name sends no last name, and a plain two-word one sends both. */
  lemma SyncNames(first: string, last: string)
    requires first != [] && ' ' !in first && last != []
    ensures SyncCall(first, []) == Some(ProfilePayload(Some(first), None, None))
    ensures SyncCall(first + " " + last, []).Some?
    ensures SyncCall(first + " " + last, []).value.firstName == Some(first)
    ensures SyncCall(first + " " + last, []).value.lastName == Some(last)
  {
    DisplayNameSplitAgrees(first);
    DisplayNameSplitAgrees(first + " " + last);
    var name := first + " " + last;
    assert ' ' in name by {
      assert name[|first|] == ' ';
    }
    UpToFirst(first, last, ' ');
  }
}
