/**
 * The authentication serializers: registration, login and password-change
 * validation, account creation, and the consent update that writes and
 * logs only the flags whose value changes.
 */
module AuthSerializers {
  import opened Common
  import opened AuthModels

  /** A serializer's verdict: the validated value, or an error message under a field name. */
  datatype Checked<T> = Accepted(value: T) | Rejected(field: string, message: string)

  /** Errors raised by `validate` itself land under this name. */
  const NonField := "non_field_errors"

  // ---------------------------------------------------------------------
  // Registration
  // ---------------------------------------------------------------------

  /** The registration fields; consent flags not sent are False. */
  datatype Registration = Registration(
    username: string, email: string, password: string, passwordConfirm: string,
    firstName: string, lastName: string, phoneNumber: string,
    dataSharingConsent: bool, locationTrackingConsent: bool, analyticsConsent: bool, marketingConsent: bool)

  /** Registration is refused exactly when the two passwords differ. */
  function ValidateRegistration(data: Registration): (r: Checked<Registration>)
    ensures r.Accepted? <==> data.password == data.passwordConfirm
    ensures r.Accepted? ==> r.value == data
    ensures r.Rejected? ==> r == Rejected(NonField, "Passwords don't match.")
  {
    if data.password != data.passwordConfirm then Rejected(NonField, "Passwords don't match.") else Accepted(data)
  }

  /** The row registration creates: the submitted fields, and the password as the one the account accepts. */
  function RegisteredUser(id: nat, data: Registration, now: Instant): (u: User)
    ensures u.id == id && u.username == data.username && u.email == data.email
    ensures u.password == Some(data.password) && u.isActive && u.firebaseUid == []
    ensures (u.firstName, u.lastName, u.phoneNumber) == (data.firstName, data.lastName, data.phoneNumber)
    ensures Consent(u, DataSharing) == data.dataSharingConsent && Consent(u, LocationTracking) == data.locationTrackingConsent
    ensures Consent(u, Analytics) == data.analyticsConsent && Consent(u, Marketing) == data.marketingConsent
  {
    NewUser(id, data.username, data.email, now).(
      firstName := data.firstName, lastName := data.lastName, phoneNumber := data.phoneNumber,
      password := Some(data.password),
      dataSharingConsent := data.dataSharingConsent, locationTrackingConsent := data.locationTrackingConsent,
      analyticsConsent := data.analyticsConsent, marketingConsent := data.marketingConsent)
  }

  /**
   * `UserRegistrationSerializer.create`: one user row, without the
   * confirmation field and with the password set, then exactly one profile
   * row and one settings row for it. The email and username must be free,
   * which the serializer's uniqueness validators check beforehand.
   */
  method Register(table: UserTable, data: Registration, now: Instant) returns (user: User)
    requires table.Valid()
    requires data.email !in Emails(table.users) && data.username !in Usernames(table.users)
    modifies table
    ensures table.Valid()
    ensures user == RegisteredUser(old(table.nextId), data, now)
    ensures table.users == old(table.users) + [user]
    ensures table.profiles == old(table.profiles) + [user.id] && table.settings == old(table.settings) + [user.id]
    ensures table.consentLogs == old(table.consentLogs)
  {
    user := RegisteredUser(table.nextId, data, now);
    table.Insert(user);
    table.profiles := table.profiles + [user.id];
    table.settings := table.settings + [user.id];
  }

  // ---------------------------------------------------------------------
  // Login
  // ---------------------------------------------------------------------

  /** Django's `authenticate(username=email, password=password)`. */
  type Authenticator = (string, string) -> Option<User>

  /**
   * Django's default backend: the user with that email whose password
   * matches, provided the account is active.
   */
  function ModelBackend(users: seq<User>, email: string, password: string): (r: Option<User>)
    ensures r.Some? ==> r.value in users && r.value.email == email && r.value.password == Some(password) && r.value.isActive
  {
    var i := FindByEmail(users, email);
    if i.Some? && users[i.value].password == Some(password) && users[i.value].isActive then Some(users[i.value]) else None
  }

  /**
   * `UserLoginSerializer.validate`, as written: both fields are required;
   * then the credentials must authenticate; then the account must be
   * active. Each failure has its own message.
   */
  function ValidateLogin(email: string, password: string, authenticate: Authenticator): (r: Checked<User>)
    ensures r.Accepted? <==>
      email != [] && password != [] && authenticate(email, password).Some? && authenticate(email, password).value.isActive
    ensures r.Accepted? ==> r.value == authenticate(email, password).value
    ensures email == [] || password == [] ==> r == Rejected(NonField, "Email and password are required.")
    ensures r == Rejected(NonField, "Invalid credentials.") <==>
      email != [] && password != [] && authenticate(email, password).None?
    ensures r == Rejected(NonField, "Account is disabled.") ==> authenticate(email, password).Some?
  {
    if email != [] && password != [] then
      var user := authenticate(email, password);
      if user.None? then Rejected(NonField, "Invalid credentials.")
      else if !user.value.isActive then Rejected(NonField, "Account is disabled.")
      else Accepted(user.value)
    else Rejected(NonField, "Email and password are required.")
  }

  /**
   * With Django's default backend, which refuses inactive accounts itself,
   * a deactivated account with the right password is told "Invalid
   * credentials."; the "Account is disabled." message is never produced.
   */
  lemma DisabledMessageUnreachable(users: seq<User>, email: string, password: string)
    ensures ValidateLogin(email, password, (e, p) => ModelBackend(users, e, p)) != Rejected(NonField, "Account is disabled.")
    ensures var i := FindByEmail(users, email);
      email != [] && password != [] && i.Some? && users[i.value].password == Some(password) && !users[i.value].isActive ==>
      ValidateLogin(email, password, (e, p) => ModelBackend(users, e, p)) == Rejected(NonField, "Invalid credentials.")
  {
  }

  /** The credentials check without the activity test: the user with that email whose password matches. */
  function CredentialsMatch(users: seq<User>, email: string, password: string): (r: Option<User>)
    ensures r.Some? ==> r.value in users && r.value.email == email && r.value.password == Some(password)
  {
    var i := FindByEmail(users, email);
    if i.Some? && users[i.value].password == Some(password) then Some(users[i.value]) else None
  }

  /**
   * The login check as its messages intend: a deactivated account with the
   * right password is told "Account is disabled.", unknown credentials
   * "Invalid credentials.", and only active accounts get in.
   */
  function ValidateLoginIntended(users: seq<User>, email: string, password: string): (r: Checked<User>)
    ensures r.Accepted? <==> email != [] && password != [] && ModelBackend(users, email, password).Some?
    ensures r.Accepted? ==> r.value == ModelBackend(users, email, password).value
    ensures r == Rejected(NonField, "Account is disabled.") <==>
      email != [] && password != [] && CredentialsMatch(users, email, password).Some? &&
      !CredentialsMatch(users, email, password).value.isActive
  {
    ValidateLogin(email, password, (e, p) => CredentialsMatch(users, e, p))
  }

  // ---------------------------------------------------------------------
  // Consent updates
  // ---------------------------------------------------------------------

  /** The consent fields sent, in the serializer's field order, with their new values. */
  type ConsentUpdate = seq<(ConsentField, bool)>

  /**
   * The loop of `ConsentUpdateSerializer.update` over the sent fields: a
   * field whose value differs from the current one is set, and a log row
   * records its consent type and new value.
   */
  function ApplyConsents(u: User, updates: ConsentUpdate, ip: Option<string>, agent: string): (User, seq<ConsentLog>)
  {
    if updates == [] then (u, [])
    else
      var (prev, logs) := ApplyConsents(u, updates[..|updates| - 1], ip, agent);
      var (f, value) := updates[|updates| - 1];
      if Consent(prev, f) != value then (WithConsent(prev, f, value), logs + [ConsentLog(u.id, f.ConsentType(), value, ip, agent)])
      else (prev, logs)
  }

  /** The value sent last for a field, if any. */
  function LastSent(updates: ConsentUpdate, f: ConsentField): Option<bool>
  {
    if updates == [] then None
    else if updates[|updates| - 1].0 == f then Some(updates[|updates| - 1].1)
    else LastSent(updates[..|updates| - 1], f)
  }

  /** A consent flag ends up with the value last sent for it, or keeps its value; nothing else changes. */
  lemma {:induction false} ConsentsApplied(u: User, updates: ConsentUpdate, ip: Option<string>, agent: string)
    ensures var r := ApplyConsents(u, updates, ip, agent).0;
      (forall f :: Consent(r, f) == LastSent(updates, f).GetOr(Consent(u, f))) &&
      r.(dataSharingConsent := u.dataSharingConsent, locationTrackingConsent := u.locationTrackingConsent,
         analyticsConsent := u.analyticsConsent, marketingConsent := u.marketingConsent) == u
  {
    if updates != [] {
      ConsentsApplied(u, updates[..|updates| - 1], ip, agent);
    }
  }

  /** No field is sent twice (the fields of a submitted form). */
  predicate DistinctFields(updates: ConsentUpdate)
  {
    forall i, j :: 0 <= i < j < |updates| ==> updates[i].0 != updates[j].0
  }

  /** The log rows the update should write: one per sent field whose value differs from the stored one, in order. */
  function ChangedLogs(u: User, updates: ConsentUpdate, ip: Option<string>, agent: string): (r: seq<ConsentLog>)
    ensures |r| <= |updates|
    ensures forall k :: 0 <= k < |r| ==>
      r[k].userId == u.id && r[k].ipAddress == ip && r[k].userAgent == agent &&
      exists f: ConsentField :: r[k].consentType + "_consent" == f.FieldName() && (f, r[k].granted) in updates && Consent(u, f) != r[k].granted
  {
    if updates == [] then []
    else
      var (f, value) := updates[|updates| - 1];
      var init := ChangedLogs(u, updates[..|updates| - 1], ip, agent);
      if Consent(u, f) != value then init + [ConsentLog(u.id, f.ConsentType(), value, ip, agent)] else init
  }

  /**
   * With each field sent once, the update logs exactly the fields whose
   * value changes, each with its new value; fields sent with their current
   * value leave no log row.
   */
  lemma {:induction false} OnlyChangesLogged(u: User, updates: ConsentUpdate, ip: Option<string>, agent: string)
    requires DistinctFields(updates)
    ensures ApplyConsents(u, updates, ip, agent).1 == ChangedLogs(u, updates, ip, agent)
  {
    if updates != [] {
      var init := updates[..|updates| - 1];
      var (f, value) := updates[|updates| - 1];
      OnlyChangesLogged(u, init, ip, agent);
      ConsentsApplied(u, init, ip, agent);
      assert LastSent(init, f).None? by {
        LastSentNone(init, f);
      }
    }
  }

  lemma {:induction false} LastSentNone(updates: ConsentUpdate, f: ConsentField)
    requires forall k :: 0 <= k < |updates| ==> updates[k].0 != f
    ensures LastSent(updates, f).None?
  {
    if updates != [] {
      LastSentNone(updates[..|updates| - 1], f);
    }
  }

  /** Sending only current values changes nothing and logs nothing, whatever the order or repetition. */
  lemma {:induction false} NoChangeNoLog(u: User, updates: ConsentUpdate, ip: Option<string>, agent: string)
    requires forall k :: 0 <= k < |updates| ==> Consent(u, updates[k].0) == updates[k].1
    ensures ApplyConsents(u, updates, ip, agent) == (u, [])
  {
    if updates != [] {
      NoChangeNoLog(u, updates[..|updates| - 1], ip, agent);
    }
  }

  /** The request's address and user agent, when there is a request. */
  datatype RequestMeta = RequestMeta(remoteAddr: Option<string>, userAgent: string)

  /**
   * `ConsentUpdateSerializer.update` on row `i`: the loop sets and logs the
   * changed flags, then the row is saved, which stamps its activity time.
   */
  method UpdateConsents(table: UserTable, i: nat, updates: ConsentUpdate, request: Option<RequestMeta>, now: Instant)
    returns (user: User)
    requires table.Valid() && i < |table.users|
    modifies table
    ensures table.Valid()
    ensures var ip := if request.Some? then request.value.remoteAddr else None;
      var agent := if request.Some? then request.value.userAgent else "";
      var (updated, logs) := ApplyConsents(old(table.users)[i], updates, ip, agent);
      user == updated.(lastActivity := Some(now)) &&
      table.users == old(table.users)[i := user] &&
      table.consentLogs == old(table.consentLogs) + logs
    ensures table.profiles == old(table.profiles) && table.settings == old(table.settings)
  {
    var ip: Option<string> := None;
    var agent := "";
    if request.Some? {
      ip := request.value.remoteAddr;
      agent := request.value.userAgent;
    }
    var start := table.users[i];
    ghost var startLogs := table.consentLogs;
    ghost var logs: seq<ConsentLog> := [];
    user := table.users[i];
    var k := 0;
    while k < |updates|
      invariant 0 <= k <= |updates|
      invariant (user, logs) == ApplyConsents(start, updates[..k], ip, agent)
      invariant table.consentLogs == startLogs + logs
      invariant table.users == old(table.users) && table.profiles == old(table.profiles)
      invariant table.settings == old(table.settings) && table.nextId == old(table.nextId)
    {
      var (field, value) := updates[k];
      assert updates[..k + 1][..k] == updates[..k];
      if Consent(user, field) != value {
        user := WithConsent(user, field, value);
        var log := ConsentLog(start.id, field.ConsentType(), value, ip, agent);
        table.consentLogs := table.consentLogs + [log];
        logs := logs + [log];
      }
      k := k + 1;
    }
    assert updates[..k] == updates;
    ConsentsApplied(start, updates, ip, agent);
    user := user.(lastActivity := Some(now));
    table.Rewrite(i, user);
  }

  // ---------------------------------------------------------------------
  // Password change
  // ---------------------------------------------------------------------

  /** Whether the account accepts `password`. */
  predicate CheckPassword(u: User, password: string)
  {
    u.password == Some(password)
  }

  /**
   * `ChangePasswordSerializer.validate`: the two new passwords must match,
   * which is checked before the current password is verified.
   */
  function ValidateChangePassword(user: User, oldPassword: string, newPassword: string, confirm: string): (r: Checked<string>)
    ensures r.Accepted? <==> newPassword == confirm && CheckPassword(user, oldPassword)
    ensures r.Accepted? ==> r.value == newPassword
    ensures newPassword != confirm ==> r == Rejected(NonField, "New passwords don't match.")
    ensures newPassword == confirm && !CheckPassword(user, oldPassword) ==>
      r == Rejected("old_password", "Incorrect current password.")
  {
    if newPassword != confirm then Rejected(NonField, "New passwords don't match.")
    else if !CheckPassword(user, oldPassword) then Rejected("old_password", "Incorrect current password.")
    else Accepted(newPassword)
  }

  /** `ChangePasswordSerializer.save`: the account accepts the new password and no other; the full save stamps the activity time. */
  function ChangePassword(user: User, newPassword: string, now: Instant): (r: User)
    ensures forall p :: CheckPassword(r, p) <==> p == newPassword
    ensures r.(password := user.password, lastActivity := user.lastActivity) == user
  {
    user.(password := Some(newPassword), lastActivity := Some(now))
  }
}
