/**
 The sign-in form: field edits, the two halves of a submit (before and after the
 sign-in call), and the mapping from the provider's error string to the message shown.
 */
module Login {
  import opened Wrappers
  import Registration

  datatype LoginForm = LoginForm(email: string, password: string)

  /** The `name` attributes of the two inputs. */
  datatype LoginField = Email | Password

  datatype LoginPage = LoginPage(form: LoginForm, isLoading: bool, error: string)

  const UnexpectedError := "Error inesperado. Por favor, intenta nuevamente."
  const DefaultLoginError := "Error al iniciar sesión. Verifica tus credenciales."

  /** `handleChange`: the named field takes the typed value; the error banner is cleared. */
  function HandleChange(p: LoginPage, field: LoginField, value: string): (p': LoginPage)
    ensures p'.error == "" && p'.isLoading == p.isLoading
    ensures p'.form.email == (if field == Email then value else p.form.email)
    ensures p'.form.password == (if field == Password then value else p.form.password)
  {
    match field
    case Email => p.(form := p.form.(email := value), error := "")
    case Password => p.(form := p.form.(password := value), error := "")
  }

  /** Outcome of the sign-in call: success, `{success: false, error}`, or a throw. */
  datatype SignInOutcome = SignedIn | SignInFailed(error: string) | SignInThrew

  /** The state while the sign-in call is pending: spinner on, banner cleared. */
  function BeginSubmit(p: LoginPage): (p': LoginPage)
    ensures p'.isLoading && p'.error == "" && p'.form == p.form
  {
    p.(isLoading := true, error := "")
  }

  /**
   The state once the call settles: a success leaves the banner empty (the auth
   subscription navigates), a failure shows the mapped message, a throw the
   generic one; the spinner is off in every case.
   */
  function FinishSubmit(p: LoginPage, outcome: SignInOutcome): (p': LoginPage)
    requires p.error == ""
    ensures !p'.isLoading && p'.form == p.form
    ensures outcome.SignedIn? ==> p'.error == ""
    ensures outcome.SignInFailed? ==> p'.error == ErrorMessage(outcome.error)
    ensures outcome.SignInThrew? ==> p'.error == UnexpectedError
  {
    match outcome
    case SignedIn => p.(isLoading := false)
    case SignInFailed(error) => p.(isLoading := false, error := ErrorMessage(error))
    case SignInThrew => p.(isLoading := false, error := UnexpectedError)
  }

  /** `handleSubmit` from start to end; the banner is empty exactly after a successful sign-in. */
  function HandleSubmit(p: LoginPage, outcome: SignInOutcome): (p': LoginPage)
    ensures !p'.isLoading && p'.form == p.form
    ensures p'.error == "" <==> outcome.SignedIn?
    ensures outcome.SignInFailed? ==> p'.error == ErrorMessage(outcome.error)
  {
    FinishSubmit(BeginSubmit(p), outcome)
  }

  /** The provider error codes the page recognises, with their messages. */
  const KnownErrors: map<string, string> := map[
    "auth/user-not-found" := "No existe una cuenta con este correo electrónico.",
    "auth/wrong-password" := "Contraseña incorrecta.",
    "auth/invalid-email" := "Correo electrónico inválido.",
    "auth/user-disabled" := "Esta cuenta ha sido deshabilitada.",
    "auth/too-many-requests" := "Demasiados intentos fallidos. Intenta más tarde.",
    "auth/network-request-failed" := "Error de conexión. Verifica tu internet."
  ]

  /** `getErrorMessage`: the message of a recognised code; any other string gets the default message. */
  function ErrorMessage(code: string): (m: string)
    ensures code in KnownErrors ==> m == KnownErrors[code]
    ensures code !in KnownErrors ==> m == DefaultLoginError
    ensures m != ""
  {
    if code == "auth/user-not-found" then "No existe una cuenta con este correo electrónico."
    else if code == "auth/wrong-password" then "Contraseña incorrecta."
    else if code == "auth/invalid-email" then "Correo electrónico inválido."
    else if code == "auth/user-disabled" then "Esta cuenta ha sido deshabilitada."
    else if code == "auth/too-many-requests" then "Demasiados intentos fallidos. Intenta más tarde."
    else if code == "auth/network-request-failed" then "Error de conexión. Verifica tu internet."
    else DefaultLoginError
  }

  /** Distinct recognised codes give distinct messages, none of them the default one. */
  lemma ErrorMessagesDistinguishCodes(c1: string, c2: string)
    requires c1 in KnownErrors && c2 in KnownErrors && c1 != c2
    ensures ErrorMessage(c1) != ErrorMessage(c2)
    ensures ErrorMessage(c1) != DefaultLoginError
  {
  }

  /** The codes both forms recognise are worded the same way on both. */
  lemma SharedCodesAgreeWithRegistration(code: string)
    requires code in KnownErrors && code in Registration.KnownErrors
    ensures ErrorMessage(code) == Registration.ErrorMessage(code)
    ensures code == "auth/invalid-email" || code == "auth/network-request-failed"
  {
  }
}
