/** The self-registration form: two local checks on the password, then one
    sign-up call whose answer decides between an error toast and the
    success screen that redirects to the plant view. */
module RegisterPage {
  import opened Common

  const MismatchMessage := "Las contraseñas no coinciden"
  const TooShortMessage := "La contraseña debe tener al menos 6 caracteres"
  const SignUpFallbackMessage := "No se pudo crear la cuenta"
  const MinPasswordLength := 6
  const SuccessRedirect := "/dashboard"
  const RedirectDelayMs := 2000

  /** What a submission ends in. `Rejected` never reaches the sign-up
      service; `SignUpFailed` and `Registered` come after its answer. */
  datatype Outcome =
    | Rejected(message: string)
    | SignUpFailed(message: string)
    | Registered(redirectTo: string, delayMs: nat)

  /** The local checks, mismatch first: the message of the first failing
      one, if any. */
  function PasswordProblem(password: string, confirmPassword: string): (r: Option<string>)
    ensures r.None? <==> password == confirmPassword && |password| >= MinPasswordLength
    ensures password != confirmPassword ==> r == Some(MismatchMessage)
    ensures password == confirmPassword && |password| < MinPasswordLength
      ==> r == Some(TooShortMessage)
  {
    if password != confirmPassword then Some(MismatchMessage)
    else if |password| < MinPasswordLength then Some(TooShortMessage)
    else None
  }

  /** Whether the submission calls `signUp`. */
  predicate CallsSignUp(password: string, confirmPassword: string) {
    PasswordProblem(password, confirmPassword).None?
  }

  /** `handleSubmit`, given the error the sign-up service would answer with
      (`None` for success; only consulted when the call is made). An error
      with an empty message falls back to a generic one. */
  function HandleSubmit(password: string, confirmPassword: string,
                        signUpError: Option<string>): (o: Outcome)
    ensures o.Rejected? <==> !CallsSignUp(password, confirmPassword)
    ensures o.Registered? <==> CallsSignUp(password, confirmPassword) && signUpError.None?
    ensures o.Registered? ==> o.redirectTo == SuccessRedirect && o.delayMs == RedirectDelayMs
    ensures o.SignUpFailed? ==> o.message != ""
  {
    match PasswordProblem(password, confirmPassword)
    case Some(message) => Rejected(message)
    case None =>
      match signUpError
      case None => Registered(SuccessRedirect, RedirectDelayMs)
      case Some(message) =>
        SignUpFailed(if message != "" then message else SignUpFallbackMessage)
  }

  /** A rejected form does not depend on the service: whatever it would
      answer, the outcome is the same. */
  lemma RejectionIgnoresService(password: string, confirmPassword: string,
                                e1: Option<string>, e2: Option<string>)
    requires !CallsSignUp(password, confirmPassword)
    ensures HandleSubmit(password, confirmPassword, e1) == HandleSubmit(password, confirmPassword, e2)
  {
  }

  /** A mismatch is reported even when the password is also too short. */
  lemma MismatchReportedFirst(password: string, confirmPassword: string, e: Option<string>)
    requires password != confirmPassword && |password| < MinPasswordLength
    ensures HandleSubmit(password, confirmPassword, e) == Rejected(MismatchMessage)
  {
  }
}
