/**
 * The registration page: the form's validation (four checks, the first
 * failing one reported), the register handler that calls Firebase or the
 * backend only for a valid form, and the social sign-in buttons that do
 * nothing but report an error when Firebase is not configured.
 */
module RegisterPage {
  import opened Common
  import opened AuthService

  datatype Form = Form(displayName: string, email: string, password: string, confirmPassword: string)

  /** The input names `handleInputChange` is wired to. */
  datatype Field = DisplayName | Email | Password | ConfirmPassword

  /** The checks, in the order `validateForm` makes them. */
  datatype Failure = MissingField | Mismatch | TooShort | NotAccepted
  {
    function Message(): string
    {
      match this
      case MissingField => "Please fill in all fields"
      case Mismatch => "Passwords do not match"
      case TooShort => "Password must be at least 6 characters long"
      case NotAccepted => "Please accept the terms of service and privacy policy"
    }
  }

  function FieldOf(f: Form, name: Field): string
  {
    match name
    case DisplayName => f.displayName
    case Email => f.email
    case Password => f.password
    case ConfirmPassword => f.confirmPassword
  }

  /** `handleInputChange`: the named field takes the value; the others keep theirs. */
  function WithInput(f: Form, name: Field, value: string): (r: Form)
    ensures forall n :: FieldOf(r, n) == if n == name then value else FieldOf(f, n)
  {
    match name
    case DisplayName => f.(displayName := value)
    case Email => f.(email := value)
    case Password => f.(password := value)
    case ConfirmPassword => f.(confirmPassword := value)
  }

  predicate AnyEmpty(f: Form)
  {
    f.displayName == [] || f.email == [] || f.password == [] || f.confirmPassword == []
  }

  /** `validateForm`: the first failing check, or None when the form passes. */
  function Validate(f: Form, acceptTerms: bool, acceptPrivacy: bool): (r: Option<Failure>)
    ensures r == Some(MissingField) <==> AnyEmpty(f)
    ensures r == Some(Mismatch) <==> !AnyEmpty(f) && f.password != f.confirmPassword
    ensures r == Some(TooShort) <==> !AnyEmpty(f) && f.password == f.confirmPassword && |f.password| < 6
    ensures r == Some(NotAccepted) <==>
      !AnyEmpty(f) && f.password == f.confirmPassword && |f.password| >= 6 && !(acceptTerms && acceptPrivacy)
    ensures r.None? <==>
      !AnyEmpty(f) && f.password == f.confirmPassword && |f.password| >= 6 && acceptTerms && acceptPrivacy
  {
    if AnyEmpty(f) then Some(MissingField)
    else if f.password != f.confirmPassword then Some(Mismatch)
    else if |f.password| < 6 then Some(TooShort)
    else if !acceptTerms || !acceptPrivacy then Some(NotAccepted)
    else None
  }

  /** The backend username: the display name, or the email up to its first `@` when that is empty. */
  function BackendUsername(f: Form): string
  {
    if f.displayName != [] then f.displayName else Split(f.email, '@')[0]
  }

  /** A form that passes validation has a display name, so the email fallback is never taken. */
  lemma ValidFormUsesDisplayName(f: Form, acceptTerms: bool, acceptPrivacy: bool)
    requires Validate(f, acceptTerms, acceptPrivacy).None?
    ensures BackendUsername(f) == f.displayName && f.displayName != []
  {
  }

  /** The registration call the handler makes. */
  datatype Call = NoCall | FirebaseSignUp(email: string, password: string, displayName: string)
    | BackendRegister(email: string, password: string, username: string)

  /** What the awaited call did. */
  datatype Reply = Succeeded | Rejected(code: string)

  const SocialUnavailable := "Social login unavailable. Please use email/password."
  const Dashboard := "/dashboard"

  /** The providers offered by the social buttons. */
  datatype Provider = Google | Facebook | Twitter

  class Page {
    var form: Form
    var acceptTerms: bool
    var acceptPrivacy: bool
    var error: string
    var isLoading: bool
    /** Where the page navigated, if it did. */
    var navigated: Option<string>

    constructor ()
      ensures form == Form([], [], [], []) && !acceptTerms && !acceptPrivacy
      ensures error == [] && !isLoading && navigated.None?
    {
      form := Form([], [], [], []);
      acceptTerms := false;
      acceptPrivacy := false;
      error := [];
      isLoading := false;
      navigated := None;
    }

    method HandleInputChange(name: Field, value: string)
      modifies this
      ensures form == WithInput(old(form), name, value)
      ensures acceptTerms == old(acceptTerms) && acceptPrivacy == old(acceptPrivacy)
      ensures error == old(error) && isLoading == old(isLoading) && navigated == old(navigated)
    {
      form := WithInput(form, name, value);
    }

    /** The terms and privacy check boxes. */
    method CheckBoxes(terms: bool, privacy: bool)
      modifies this
      ensures acceptTerms == terms && acceptPrivacy == privacy
      ensures form == old(form) && error == old(error) && isLoading == old(isLoading) && navigated == old(navigated)
    {
      acceptTerms := terms;
      acceptPrivacy := privacy;
    }

    /** What the handler does once the call was made: to the dashboard, or the mapped error. */
    method Settle(reply: Reply)
      modifies this
      ensures !isLoading
      ensures reply.Succeeded? ==> error == [] && navigated == Some(Dashboard)
      ensures reply.Rejected? ==> error == AuthErrorMessage(reply.code) && navigated == old(navigated)
      ensures form == old(form) && acceptTerms == old(acceptTerms) && acceptPrivacy == old(acceptPrivacy)
    {
      isLoading := true;
      error := [];
      match reply {
        case Succeeded => navigated := Some(Dashboard);
        case Rejected(code) => error := AuthErrorMessage(code);
      }
      isLoading := false;
    }

    /**
     * `handleRegister`: an invalid form sets the first failure's message
     * and makes no call; a valid one signs up with Firebase when it is
     * configured, else registers with the backend under the display name.
     */
    method HandleRegister(authReady: bool, reply: Reply) returns (call: Call)
      modifies this
      ensures form == old(form) && acceptTerms == old(acceptTerms) && acceptPrivacy == old(acceptPrivacy)
      ensures Validate(form, acceptTerms, acceptPrivacy).Some? ==>
        call == NoCall && error == Validate(form, acceptTerms, acceptPrivacy).value.Message() &&
        isLoading == old(isLoading) && navigated == old(navigated)
      ensures Validate(form, acceptTerms, acceptPrivacy).None? ==>
        call == (if authReady then FirebaseSignUp(form.email, form.password, form.displayName)
                 else BackendRegister(form.email, form.password, form.displayName)) &&
        !isLoading &&
        (reply.Succeeded? ==> error == [] && navigated == Some(Dashboard)) &&
        (reply.Rejected? ==> error == AuthErrorMessage(reply.code) && navigated == old(navigated))
    {
      var failure := Validate(form, acceptTerms, acceptPrivacy);
      if failure.Some? {
        error := failure.value.Message();
        return NoCall;
      }
      ValidFormUsesDisplayName(form, acceptTerms, acceptPrivacy);
      if authReady {
        call := FirebaseSignUp(form.email, form.password, form.displayName);
      } else {
        call := BackendRegister(form.email, form.password, BackendUsername(form));
      }
      Settle(reply);
    }

    /**
     * The Google, Facebook and Twitter buttons: without Firebase only the
     * error is set and no popup opens; otherwise as the register handler.
     */
    method HandleSocialSignIn(provider: Provider, authReady: bool, reply: Reply) returns (popup: bool)
      modifies this
      ensures popup == authReady
      ensures form == old(form) && acceptTerms == old(acceptTerms) && acceptPrivacy == old(acceptPrivacy)
      ensures !authReady ==> error == SocialUnavailable && isLoading == old(isLoading) && navigated == old(navigated)
      ensures authReady ==>
        !isLoading &&
        (reply.Succeeded? ==> error == [] && navigated == Some(Dashboard)) &&
        (reply.Rejected? ==> error == AuthErrorMessage(reply.code) && navigated == old(navigated))
    {
      if !authReady {
        error := SocialUnavailable;
        return false;
      }
      Settle(reply);
      popup := true;
    }
  }
}
