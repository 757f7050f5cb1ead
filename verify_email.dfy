/** The email-verification page: the digit-only code input, the verify request with its
    automatic login, and the resend request. */
module VerifyEmail {
  import opened Common
  import AuthContext

  const OtpLength: nat := 6
  const OtpLengthError: string := "OTP must be 6 digits"
  const VerificationFailed: string := "Verification failed"
  const GenericError: string := "Something went wrong. Please try again."

  /** `value.replace(/\D/g, '')`: every non-digit removed, the digits kept in order. */
  function StripNonDigits(s: string): (r: string)
    ensures AllDigits(r)
    ensures IsSubsequence(r, s)
    ensures forall c :: c in r <==> c in s && IsDigit(c)
    ensures |r| == CountDigits(s)
  {
    if s == [] then []
    else if IsDigit(s[0]) then [s[0]] + StripNonDigits(s[1..])
    else
      var rest := StripNonDigits(s[1..]);
      SubsequenceSkip(rest, s);
      rest
  }

  function CountDigits(s: string): (n: nat)
    ensures n <= |s|
  {
    if s == [] then 0 else (if IsDigit(s[0]) then 1 else 0) + CountDigits(s[1..])
  }

  /** A digits-only string passes through unchanged. */
  lemma {:induction false} StripKeepsDigits(s: string)
    requires AllDigits(s)
    ensures StripNonDigits(s) == s
  {
    if s != [] {
      StripKeepsDigits(s[1..]);
    }
  }

  /** Stripping twice is stripping once. */
  lemma StripIdempotent(s: string)
    ensures StripNonDigits(StripNonDigits(s)) == StripNonDigits(s)
  {
    StripKeepsDigits(StripNonDigits(s));
  }

  /** The body of the verify request. */
  datatype VerifyBody = VerifyBody(email: string, otp: string)

  /** What the verify answer does: the new error text (`None`: left as cleared), the token
      handed to `login`, and whether the page goes to the feed. */
  datatype VerifyAnswer = VerifyAnswer(error: Option<string>, login: Option<string>, goHome: bool)

  /** `token` is the body's `token` field on a 2xx. A truthy token is passed to `login`;
      if decoding it throws, the page shows the generic error and stays. */
  function OnVerified(outcome: Response<Option<string>>, decode: string -> Option<AuthContext.Claims>): (a: VerifyAnswer)
    ensures a.login.Some? <==> outcome.Ok? && Truthy(outcome.data)
    ensures a.login.Some? ==> a.login == outcome.data
    ensures a.goHome <==> a.login.Some? && decode(a.login.value).Some?
    ensures a.goHome ==> a.error.None?
    ensures outcome.Ok? && !Truthy(outcome.data) ==> a.error.None? && !a.goHome
    ensures outcome.HttpError? ==> a.error == Some(OrDefault(outcome.message, VerificationFailed))
    ensures a.login.Some? && !a.goHome ==> a.error == Some(GenericError)
  {
    match outcome
    case Ok(tok) =>
      if !Truthy(tok) then VerifyAnswer(None, None, false)
      else if decode(tok.value).Some? then VerifyAnswer(None, tok, true)
      else VerifyAnswer(Some(GenericError), tok, false)
    case HttpError(m) => VerifyAnswer(Some(OrDefault(m, VerificationFailed)), None, false)
    case _ => VerifyAnswer(Some(GenericError), None, false)
  }

  class VerifyEmailPage {
    const email: string
    var otp: string
    var loading: bool
    var error: string
    var goneHome: bool

    /** `location.state?.email || ''` */
    constructor (stateEmail: Option<string>)
      ensures email == OrDefault(stateEmail, "")
      ensures otp == "" && !loading && error == "" && !goneHome
    {
      email := OrDefault(stateEmail, "");
      otp, loading, error, goneHome := "", false, "", false;
    }

    /** The input's change handler: only digits reach the state. */
    method ChangeOtp(typed: string)
      modifies this
      ensures otp == StripNonDigits(typed) && AllDigits(otp)
      ensures loading == old(loading) && error == old(error) && goneHome == old(goneHome)
    {
      otp := StripNonDigits(typed);
    }

    /** `handleSubmit` up to the request: a code of the wrong length never leaves the page. */
    method Submit() returns (request: Option<VerifyBody>)
      modifies this
      ensures request.Some? <==> |old(otp)| == OtpLength
      ensures request.Some? ==> request.value == VerifyBody(email, old(otp)) && loading && error == ""
      ensures request.None? ==> !loading && error == OtpLengthError
      ensures otp == old(otp) && goneHome == old(goneHome)
    {
      error := "";
      loading := true;
      if |otp| != OtpLength {
        error := OtpLengthError;
        loading := false;
        request := None;
      } else {
        request := Some(VerifyBody(email, otp));
      }
    }

    /** The verify answer; every path ends with `loading` false. */
    method OnVerifyResponse(outcome: Response<Option<string>>, auth: AuthContext.AuthProvider,
                            decode: string -> Option<AuthContext.Claims>)
      requires auth.Valid()
      modifies this, auth
      ensures var a := OnVerified(outcome, decode);
        auth.State() == (if a.login.Some? then AuthContext.LoginStep(old(auth.State()), a.login.value, decode)
                         else old(auth.State())) &&
        error == a.error.GetOr(old(error)) && goneHome == (a.goHome || old(goneHome))
      ensures auth.Valid() && !loading && otp == old(otp)
    {
      var a := OnVerified(outcome, decode);
      if a.login.Some? {
        var ok := auth.Login(a.login.value, decode);
        if ok {
          goneHome := true;
        } else {
          error := GenericError;
        }
      } else if a.error.Some? {
        error := a.error.value;
      }
      loading := false;
    }

    /** `handleResendOtp` up to the request: without an email nothing is sent. */
    method Resend() returns (request: Option<string>)
      ensures request.Some? <==> email != ""
      ensures request.Some? ==> request.value == email
    {
      request := if email == "" then None else Some(email);
    }

    /** A new code was sent: the old input and error are cleared. */
    method OnResendResponse(outcome: Response<()>)
      modifies this
      ensures otp == (if outcome.Ok? then "" else old(otp))
      ensures error == (if outcome.Ok? then "" else old(error))
      ensures loading == old(loading) && goneHome == old(goneHome)
    {
      if outcome.Ok? {
        otp := "";
        error := "";
      }
    }
  }
}
