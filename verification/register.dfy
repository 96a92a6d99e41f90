/**
 The registration form: field edits, the ordered local checks run before the
 sign-up call, what a submit does with the call's outcome, and the mapping from
 the provider's error string to the message shown.
 */
module Registration {
  import opened Wrappers
  import opened JsStrings

  datatype RegisterForm = RegisterForm(fullName: string, email: string, password: string, confirmPassword: string)

  /** The `name` attributes of the four inputs. */
  datatype RegisterField = FullName | Email | Password | ConfirmPassword

  datatype RegisterPage = RegisterPage(form: RegisterForm, isLoading: bool, error: string, success: string)

  const PasswordMismatch := "Las contraseñas no coinciden"
  const PasswordTooShort := "La contraseña debe tener al menos 6 caracteres"
  const NameTooShort := "El nombre debe tener al menos 2 caracteres"
  const AccountCreated := "¡Cuenta creada exitosamente! Redirigiendo..."
  const UnexpectedError := "Error inesperado. Por favor, intenta nuevamente."
  const DefaultRegisterError := "Error al crear la cuenta. Por favor, intenta nuevamente."

  /** Minimum password length, in UTF-16 code units as JavaScript counts them. */
  const MinPasswordLength := 6
  /** Minimum length of the trimmed full name. */
  const MinNameLength := 2

  /** `handleChange`: the named field takes the typed value; both banners are cleared. */
  function HandleChange(p: RegisterPage, field: RegisterField, value: string): (p': RegisterPage)
    ensures p'.error == "" && p'.success == "" && p'.isLoading == p.isLoading
    ensures p'.form.fullName == (if field == FullName then value else p.form.fullName)
    ensures p'.form.email == (if field == Email then value else p.form.email)
    ensures p'.form.password == (if field == Password then value else p.form.password)
    ensures p'.form.confirmPassword == (if field == ConfirmPassword then value else p.form.confirmPassword)
  {
    var f := p.form;
    var f' := match field
      case FullName => f.(fullName := value)
      case Email => f.(email := value)
      case Password => f.(password := value)
      case ConfirmPassword => f.(confirmPassword := value);
    p.(form := f', error := "", success := "")
  }

  /** Result of the local checks: the first failing check's message, or the trimmed name to register with. */
  datatype Verdict = Rejected(message: string) | Accepted(name: string)

  /**
   The checks in source order: the two passwords must match; then the password
   must have at least 6 code units; then the trimmed name at least 2.
   */
  function Validate(f: RegisterForm): (v: Verdict)
    ensures f.password != f.confirmPassword ==> v == Rejected(PasswordMismatch)
    ensures f.password == f.confirmPassword && Utf16Length(f.password) < MinPasswordLength
            ==> v == Rejected(PasswordTooShort)
    ensures f.password == f.confirmPassword && Utf16Length(f.password) >= MinPasswordLength
            && Utf16Length(Trim(f.fullName)) < MinNameLength
            ==> v == Rejected(NameTooShort)
    ensures v.Accepted? <==> f.password == f.confirmPassword && Utf16Length(f.password) >= MinPasswordLength
                             && Utf16Length(Trim(f.fullName)) >= MinNameLength
    ensures v.Accepted? ==> v.name == Trim(f.fullName) && |v.name| >= 1
  {
    if f.password != f.confirmPassword then Rejected(PasswordMismatch)
    else if Utf16Length(f.password) < MinPasswordLength then Rejected(PasswordTooShort)
    else if Utf16Length(Trim(f.fullName)) < MinNameLength then Rejected(NameTooShort)
    else Accepted(Trim(f.fullName))
  }

  /** An accepted name is already trimmed and non-blank. */
  lemma AcceptedNameIsTrimmed(f: RegisterForm)
    requires Validate(f).Accepted?
    ensures Trim(Validate(f).name) == Validate(f).name
    ensures !IsWhiteSpace(Validate(f).name[0])
  {
    TrimIdempotent(f.fullName);
  }

  /** The arguments of the sign-up call. */
  datatype SignUpRequest = SignUpRequest(email: string, password: string, fullName: string)

  /** Outcome of the sign-up call: success, `{success: false, error}`, or a throw. */
  datatype SignUpOutcome = SignedUp | SignUpFailed(error: string) | SignUpThrew

  /** What a submit leaves: the page, the call made (if any), and whether the redirect timer was started. */
  datatype RegisterStep = RegisterStep(page: RegisterPage, request: Option<SignUpRequest>, redirectScheduled: bool)

  /** `handleSubmit`: local checks first, then one sign-up call with the trimmed name. */
  function HandleSubmit(p: RegisterPage, outcome: SignUpOutcome): (s: RegisterStep)
    ensures !s.page.isLoading && s.page.form == p.form
    ensures Validate(p.form).Rejected? ==>
              s.request.None? && s.page.error == Validate(p.form).message && s.page.success == "" && !s.redirectScheduled
    ensures Validate(p.form).Accepted? ==>
              s.request == Some(SignUpRequest(p.form.email, p.form.password, Trim(p.form.fullName)))
    ensures s.redirectScheduled <==> Validate(p.form).Accepted? && outcome.SignedUp?
    ensures s.redirectScheduled ==> s.page.success == AccountCreated && s.page.error == ""
    ensures Validate(p.form).Accepted? && outcome.SignUpFailed? ==>
              s.page.error == ErrorMessage(outcome.error) && s.page.success == ""
    ensures Validate(p.form).Accepted? && outcome.SignUpThrew? ==>
              s.page.error == UnexpectedError && s.page.success == ""
  {
    match Validate(p.form)
    case Rejected(message) =>
      RegisterStep(p.(isLoading := false, error := message, success := ""), None, false)
    case Accepted(name) =>
      var request := Some(SignUpRequest(p.form.email, p.form.password, name));
      match outcome
      case SignedUp =>
        RegisterStep(p.(isLoading := false, error := "", success := AccountCreated), request, true)
      case SignUpFailed(error) =>
        RegisterStep(p.(isLoading := false, error := ErrorMessage(error), success := ""), request, false)
      case SignUpThrew =>
        RegisterStep(p.(isLoading := false, error := UnexpectedError, success := ""), request, false)
  }

  /** The provider error codes the page recognises, with their messages. */
  const KnownErrors: map<string, string> := map[
    "auth/email-already-in-use" := "Ya existe una cuenta con este correo electrónico.",
    "auth/invalid-email" := "Correo electrónico inválido.",
    "auth/operation-not-allowed" := "Registro no permitido. Contacta al administrador.",
    "auth/weak-password" := "La contraseña es muy débil. Debe tener al menos 6 caracteres.",
    "auth/network-request-failed" := "Error de conexión. Verifica tu internet."
  ]

  /** `getErrorMessage`: the message of a recognised code; any other string gets the default message. */
  function ErrorMessage(code: string): (m: string)
    ensures code in KnownErrors ==> m == KnownErrors[code]
    ensures code !in KnownErrors ==> m == DefaultRegisterError
  {
    if code == "auth/email-already-in-use" then "Ya existe una cuenta con este correo electrónico."
    else if code == "auth/invalid-email" then "Correo electrónico inválido."
    else if code == "auth/operation-not-allowed" then "Registro no permitido. Contacta al administrador."
    else if code == "auth/weak-password" then "La contraseña es muy débil. Debe tener al menos 6 caracteres."
    else if code == "auth/network-request-failed" then "Error de conexión. Verifica tu internet."
    else DefaultRegisterError
  }

  /** Distinct recognised codes give distinct messages, none of them the default one. */
  lemma ErrorMessagesDistinguishCodes(c1: string, c2: string)
    requires c1 in KnownErrors && c2 in KnownErrors && c1 != c2
    ensures ErrorMessage(c1) != ErrorMessage(c2)
    ensures ErrorMessage(c1) != DefaultRegisterError
  {
  }
}
