/** The sign-up form: field edits, client-side validation, the registration request and
    what its answer does to the page. */
module Signup {
  import opened Common

  datatype Form = Form(email: string, password: string, confirmPassword: string)

  /** The `name` attribute of the three inputs. */
  datatype Field = Email | Password | ConfirmPassword

  const MismatchError: string := "Passwords do not match"
  const TooShortError: string := "Password must be at least 6 characters"
  const RegistrationFailed: string := "Registration failed"
  const GenericError: string := "Something went wrong. Please try again."
  const MinPasswordLength: nat := 6

  /** `{ ...formData, [name]: value }`: one field replaced, the others kept. */
  function HandleChange(f: Form, field: Field, value: string): (r: Form)
    ensures r.email == (if field == Email then value else f.email)
    ensures r.password == (if field == Password then value else f.password)
    ensures r.confirmPassword == (if field == ConfirmPassword then value else f.confirmPassword)
  {
    match field
    case Email => f.(email := value)
    case Password => f.(password := value)
    case ConfirmPassword => f.(confirmPassword := value)
  }

  /** The JSON body sent to the registration endpoint: the confirmation is not sent. */
  datatype RegisterBody = RegisterBody(email: string, password: string)

  /** The checks before any request, in source order: the mismatch is reported before the
      length, so a short mismatching pair gets the mismatch message. */
  function Validate(f: Form): (r: Option<string>)
    ensures r.None? <==> f.password == f.confirmPassword && |f.password| >= MinPasswordLength
    ensures r == Some(MismatchError) <==> f.password != f.confirmPassword
    ensures r == Some(TooShortError) <==> f.password == f.confirmPassword && |f.password| < MinPasswordLength
  {
    if f.password != f.confirmPassword then Some(MismatchError)
    else if |f.password| < MinPasswordLength then Some(TooShortError)
    else None
  }

  /** What `handleSubmit` does before awaiting: an error message, or the request body. */
  datatype SubmitStart = Rejected(error: string) | Send(body: RegisterBody)

  function StartSubmit(f: Form): (r: SubmitStart)
    ensures r.Send? <==> Validate(f).None?
    ensures r.Rejected? ==> Some(r.error) == Validate(f)
    ensures r.Send? ==> r.body.email == f.email && r.body.password == f.password
  {
    match Validate(f)
    case Some(e) => Rejected(e)
    case None => Send(RegisterBody(f.email, f.password))
  }

  /** Where the page goes on success: the verification page, carrying the email. */
  datatype Navigation = VerifyEmailWith(email: string)

  /** The page's error text and navigation after the registration answer. */
  datatype Answer = Answer(error: string, navigation: Option<Navigation>)

  function OnRegistered(outcome: Response<()>, email: string): (a: Answer)
    ensures a.navigation.Some? <==> outcome.Ok?
    ensures a.navigation.Some? ==> a.navigation.value == VerifyEmailWith(email) && a.error == ""
    ensures outcome.HttpError? ==> a.error == OrDefault(outcome.message, RegistrationFailed)
    ensures !outcome.Ok? ==> a.error != ""
  {
    match outcome
    case Ok(_) => Answer("", Some(VerifyEmailWith(email)))
    case HttpError(m) => Answer(OrDefault(m, RegistrationFailed), None)
    case _ => Answer(GenericError, None)
  }

  /** A valid form always yields a request with the password the user typed twice. */
  lemma ValidFormSendsTypedPassword(f: Form)
    requires f.password == f.confirmPassword && |f.password| >= MinPasswordLength
    ensures StartSubmit(f) == Send(RegisterBody(f.email, f.confirmPassword))
  {
  }

  /** Typing the same password into both fields, at least six characters long, from any
      starting form, makes the form submittable. */
  lemma TypingBothFieldsValidates(f: Form, pw: string)
    requires |pw| >= MinPasswordLength
    ensures Validate(HandleChange(HandleChange(f, Password, pw), ConfirmPassword, pw)).None?
  {
  }

  class SignupPage {
    var form: Form
    var error: string
    var navigation: Option<Navigation>

    constructor ()
      ensures form == Form("", "", "") && error == "" && navigation.None?
    {
      form := Form("", "", "");
      error := "";
      navigation := None;
    }

    method Change(field: Field, value: string)
      modifies this
      ensures form == HandleChange(old(form), field, value)
      ensures error == old(error) && navigation == old(navigation)
    {
      form := HandleChange(form, field, value);
    }

    /** `handleSubmit` up to the request: clear the error, then validate. */
    method Submit() returns (request: Option<RegisterBody>)
      modifies this
      ensures request.Some? <==> StartSubmit(old(form)).Send?
      ensures request.Some? ==> request.value == StartSubmit(old(form)).body && error == ""
      ensures request.None? ==> error == StartSubmit(old(form)).error
      ensures form == old(form) && navigation == old(navigation)
    {
      error := "";
      var start := StartSubmit(form);
      match start
      case Rejected(e) =>
        error := e;
        request := None;
      case Send(body) =>
        request := Some(body);
    }

    /** The registration answer; `email` is the form's email when the request was sent. */
    method OnResponse(outcome: Response<()>, email: string)
      modifies this
      ensures error == (if outcome.Ok? then old(error) else OnRegistered(outcome, email).error)
      ensures navigation == (if outcome.Ok? then OnRegistered(outcome, email).navigation else old(navigation))
      ensures form == old(form)
    {
      var a := OnRegistered(outcome, email);
      if outcome.Ok? {
        navigation := a.navigation;
      } else {
        error := a.error;
      }
    }
  }
}
