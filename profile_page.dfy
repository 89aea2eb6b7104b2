/**
 * The profile page (demo mode): the profile form and consent check boxes,
 * their simulated saves, the feedback form that opens a `mailto:` link
 * with the subject and body URI-encoded, and the change-password form.
 */
module ProfilePage {
  import opened Common
  import opened UriComponent

  datatype ProfileForm = ProfileForm(username: string, email: string, firstName: string, lastName: string)

  /** The input names `handleChange` is wired to. */
  datatype FormField = Username | Email | FirstName | LastName

  function FieldOf(f: ProfileForm, name: FormField): string
  {
    match name
    case Username => f.username
    case Email => f.email
    case FirstName => f.firstName
    case LastName => f.lastName
  }

  /** `handleChange`: the named field takes the value and only it changes. */
  function WithChange(f: ProfileForm, name: FormField, value: string): (r: ProfileForm)
    ensures forall n :: FieldOf(r, n) == if n == name then value else FieldOf(f, n)
  {
    match name
    case Username => f.(username := value)
    case Email => f.(email := value)
    case FirstName => f.(firstName := value)
    case LastName => f.(lastName := value)
  }

  datatype Consent = Consent(locationTracking: bool, dataSharing: bool, analytics: bool, marketing: bool)

  /** The check box names `handleConsentChange` is wired to. */
  datatype ConsentFlag = LocationTracking | DataSharing | Analytics | Marketing

  function FlagOf(c: Consent, flag: ConsentFlag): bool
  {
    match flag
    case LocationTracking => c.locationTracking
    case DataSharing => c.dataSharing
    case Analytics => c.analytics
    case Marketing => c.marketing
  }

  /** `handleConsentChange`: the named flag takes the box's state and only it changes. */
  function WithConsent(c: Consent, flag: ConsentFlag, checked: bool): (r: Consent)
    ensures forall n :: FlagOf(r, n) == if n == flag then checked else FlagOf(c, n)
  {
    match flag
    case LocationTracking => c.(locationTracking := checked)
    case DataSharing => c.(dataSharing := checked)
    case Analytics => c.(analytics := checked)
    case Marketing => c.(marketing := checked)
  }

  /** The user shown on the page: the form's fields plus the displayed full name. */
  datatype User = User(username: string, email: string, firstName: string, lastName: string, fullName: string)

  /** The demo user the page starts with. */
  const MockUser := User("demo_user", "demo@travelogy.com", "Demo", "User", "Demo User")
  const MockConsent := Consent(true, false, true, false)

  /** `{...prev, ...form}`: the four form fields overwrite the user's; the full name is not recomputed. */
  function Merged(u: User, f: ProfileForm): (r: User)
    ensures r.username == f.username && r.email == f.email && r.firstName == f.firstName && r.lastName == f.lastName
    ensures r.fullName == u.fullName
  {
    u.(username := f.username, email := f.email, firstName := f.firstName, lastName := f.lastName)
  }

  // ---------------------------------------------------------------------
  // Feedback
  // ---------------------------------------------------------------------

  const FeedbackTo := "mailto:team@skystack.dev"
  const DefaultSender := "demo@travelogy.com"

  /** The feedback mail's body: the message, a blank line, and the sender. */
  function FeedbackBody(message: string, from: string): string
  {
    message + "\n\nFrom: " + from
  }

  /** The link the feedback button opens: the subject and the body with the sender line, encoded. */
  function FeedbackHref(subject: string, message: string, from: string): string
  {
    MailtoLink(FeedbackTo, subject, FeedbackBody(message, from))
  }

  /**
   * The feedback link carries exactly two parameters, `subject` and
   * `body`, which decode to the subject and to the message followed by
   * `From: <sender>`; nothing typed can add or break a parameter.
   */
  lemma FeedbackLinkReadsBack(subject: string, message: string, from: string)
    ensures QueryParams(FeedbackHref(subject, message, from)) ==
      [("subject", Some(subject)), ("body", Some(FeedbackBody(message, from)))]
  {
    assert '?' !in FeedbackTo by {
      assert forall i :: 0 <= i < |FeedbackTo| ==> FeedbackTo[i] != '?';
    }
    MailtoReadsBack(FeedbackTo, subject, FeedbackBody(message, from));
  }

  /** The body always ends with the sender line. */
  lemma FeedbackBodyEndsWithSender(message: string, from: string)
    ensures |FeedbackBody(message, from)| >= |"From: " + from|
    ensures FeedbackBody(message, from)[|FeedbackBody(message, from)| - |"From: " + from|..] == "From: " + from
  {
    assert FeedbackBody(message, from) == (message + "\n\n") + ("From: " + from);
  }

  // ---------------------------------------------------------------------
  // Password
  // ---------------------------------------------------------------------

  const PasswordsDiffer := "New passwords do not match"
  const PasswordTooShort := "New password must be at least 6 characters long"
  const PasswordChanged := "Password changed successfully (demo mode)"

  /** The change-password checks: a mismatch first, then a length under 6. */
  function PasswordProblem(newPwd: string, newPwd2: string): (r: Option<string>)
    ensures r == Some(PasswordsDiffer) <==> newPwd != newPwd2
    ensures r == Some(PasswordTooShort) <==> newPwd == newPwd2 && |newPwd| < 6
    ensures r.None? <==> newPwd == newPwd2 && |newPwd| >= 6
  {
    if newPwd != newPwd2 then Some(PasswordsDiffer)
    else if |newPwd| < 6 then Some(PasswordTooShort)
    else None
  }

  /** `ChangePasswordForm`. */
  class PasswordForm {
    var oldPwd: string
    var newPwd: string
    var newPwd2: string
    var loading: bool
    var error: Option<string>
    var success: Option<string>

    constructor ()
      ensures oldPwd == [] && newPwd == [] && newPwd2 == [] && !loading && error.None? && success.None?
    {
      oldPwd := [];
      newPwd := [];
      newPwd2 := [];
      loading := false;
      error := None;
      success := None;
    }

    /**
     * `submit`: a failed check sets its message and keeps the fields; a
     * passing one reports success and clears all three fields.
     */
    method Submit()
      modifies this
      ensures !loading
      ensures PasswordProblem(old(newPwd), old(newPwd2)).Some? ==>
        error == PasswordProblem(old(newPwd), old(newPwd2)) && success.None? &&
        oldPwd == old(oldPwd) && newPwd == old(newPwd) && newPwd2 == old(newPwd2)
      ensures PasswordProblem(old(newPwd), old(newPwd2)).None? ==>
        error.None? && success == Some(PasswordChanged) && oldPwd == [] && newPwd == [] && newPwd2 == []
    {
      error := None;
      success := None;
      loading := true;
      var problem := PasswordProblem(newPwd, newPwd2);
      if problem.Some? {
        error := problem;
        loading := false;
        return;
      }
      success := Some(PasswordChanged);
      oldPwd := [];
      newPwd := [];
      newPwd2 := [];
      loading := false;
    }
  }

  // ---------------------------------------------------------------------
  // The page
  // ---------------------------------------------------------------------

  const FeedbackIncomplete := "Please fill in both subject and message"
  const FeedbackPrepared := "Feedback prepared! Your email client should open."
  const ProfileUpdated := "Profile updated successfully"
  const ConsentSaved := "Consent preferences saved"

  class Page {
    var user: User
    var form: ProfileForm
    var consent: Consent
    var error: Option<string>
    var success: Option<string>
    var saving: bool
    var savingConsent: bool
    var fbSubject: string
    var fbMessage: string
    /** The address the window was sent to, if any. */
    var location: Option<string>

    constructor ()
      ensures user == MockUser && consent == MockConsent
      ensures form == ProfileForm(MockUser.username, MockUser.email, MockUser.firstName, MockUser.lastName)
      ensures error.None? && success.None? && !saving && !savingConsent
      ensures fbSubject == [] && fbMessage == [] && location.None?
    {
      user := MockUser;
      form := ProfileForm(MockUser.username, MockUser.email, MockUser.firstName, MockUser.lastName);
      consent := MockConsent;
      error := None;
      success := None;
      saving := false;
      savingConsent := false;
      fbSubject := [];
      fbMessage := [];
      location := None;
    }

    method HandleChange(name: FormField, value: string)
      modifies this
      ensures form == WithChange(old(form), name, value)
      ensures user == old(user) && consent == old(consent) && error == old(error) && success == old(success)
      ensures saving == old(saving) && savingConsent == old(savingConsent)
      ensures fbSubject == old(fbSubject) && fbMessage == old(fbMessage) && location == old(location)
    {
      form := WithChange(form, name, value);
    }

    method HandleConsentChange(flag: ConsentFlag, checked: bool)
      modifies this
      ensures consent == WithConsent(old(consent), flag, checked)
      ensures user == old(user) && form == old(form) && error == old(error) && success == old(success)
      ensures saving == old(saving) && savingConsent == old(savingConsent)
      ensures fbSubject == old(fbSubject) && fbMessage == old(fbMessage) && location == old(location)
    {
      consent := WithConsent(consent, flag, checked);
    }

    /** `handleSave`, once its timer fires: the form is merged into the user and success reported. */
    method HandleSave()
      modifies this
      ensures user == Merged(old(user), old(form)) && form == old(form)
      ensures success == Some(ProfileUpdated) && !saving
      ensures error == old(error) && consent == old(consent) && savingConsent == old(savingConsent)
      ensures fbSubject == old(fbSubject) && fbMessage == old(fbMessage) && location == old(location)
    {
      saving := true;
      success := None;
      user := Merged(user, form);
      success := Some(ProfileUpdated);
      saving := false;
    }

    /** `handleSaveConsent`, once its timer fires: only the success message; nothing is sent. */
    method HandleSaveConsent()
      modifies this
      ensures success == Some(ConsentSaved) && !savingConsent
      ensures consent == old(consent) && user == old(user) && error == old(error)
      ensures form == old(form) && saving == old(saving)
      ensures fbSubject == old(fbSubject) && fbMessage == old(fbMessage) && location == old(location)
    {
      savingConsent := true;
      success := None;
      success := Some(ConsentSaved);
      savingConsent := false;
    }

    /**
     * The feedback button: without both a subject and a message only the
     * error is set; otherwise the window goes to the feedback link, signed
     * with the user's email (the demo address when it is empty), and both
     * fields are cleared.
     */
    method SendFeedback()
      modifies this
      ensures old(fbSubject) == [] || old(fbMessage) == [] ==>
        error == Some(FeedbackIncomplete) && location == old(location) &&
        fbSubject == old(fbSubject) && fbMessage == old(fbMessage) && success == old(success)
      ensures old(fbSubject) != [] && old(fbMessage) != [] ==>
        location == Some(FeedbackHref(old(fbSubject), old(fbMessage), if user.email != [] then user.email else DefaultSender)) &&
        success == Some(FeedbackPrepared) && fbSubject == [] && fbMessage == [] && error == old(error)
      ensures user == old(user) && form == old(form) && consent == old(consent)
      ensures saving == old(saving) && savingConsent == old(savingConsent)
    {
      if fbSubject == [] || fbMessage == [] {
        error := Some(FeedbackIncomplete);
        return;
      }
      var from := if user.email != [] then user.email else DefaultSender;
      location := Some(FeedbackHref(fbSubject, fbMessage, from));
      success := Some(FeedbackPrepared);
      fbSubject := [];
      fbMessage := [];
    }

    /** The feedback text fields. */
    method TypeFeedback(subject: string, message: string)
      modifies this
      ensures fbSubject == subject && fbMessage == message
      ensures user == old(user) && form == old(form) && location == old(location)
      ensures error == old(error) && success == old(success)
      ensures consent == old(consent) && saving == old(saving) && savingConsent == old(savingConsent)
    {
      fbSubject := subject;
      fbMessage := message;
    }

    /** The Clear button. */
    method ClearFeedback()
      modifies this
      ensures fbSubject == [] && fbMessage == []
      ensures user == old(user) && form == old(form) && location == old(location)
      ensures error == old(error) && success == old(success)
      ensures consent == old(consent) && saving == old(saving) && savingConsent == old(savingConsent)
    {
      fbSubject := [];
      fbMessage := [];
    }
  }
}
