/** The owner sign-in screen (components/Login.tsx): stored credentials with
    built-in defaults, the login check, and the change-password and
    change-ID forms with their ordered validation. Local storage is a plain
    record; the simulated network delays are collapsed, so each submit
    yields its final state at once. */
module Login {
  import opened Seqs
  import opened Strings
  import opened Records

  const DefaultOwnerId := "Shamb2278"
  const DefaultPassword := "Shamb2278@"
  const MinPasswordLength := 6
  const MinOwnerIdLength := 4

  /** The owner the app signs in on success. */
  const Owner := User("Shamb (Owner)", "+91 89996 78500")

  /** The two stored entries; `None` when the key is missing. */
  datatype Store = Store(ownerId: Option<string>, password: Option<string>)

  /** `stored || default`: a missing or empty entry counts as the default. */
  function Effective(stored: Option<string>, default: string): (r: string)
    ensures default != "" ==> r != ""
    ensures stored.Some? && stored.value != "" ==> r == stored.value
    ensures stored.None? || stored.value == "" ==> r == default
  {
    if stored.Some? && stored.value != "" then stored.value else default
  }

  function EffectiveId(s: Store): string {
    Effective(s.ownerId, DefaultOwnerId)
  }

  function EffectivePassword(s: Store): string {
    Effective(s.password, DefaultPassword)
  }

  /** The mount effect: writes the defaults for missing or empty entries. */
  function Initialise(s: Store): (r: Store)
    ensures r.ownerId.Some? && r.ownerId.value != "" && r.password.Some? && r.password.value != ""
    ensures EffectiveId(r) == EffectiveId(s) && EffectivePassword(r) == EffectivePassword(s)
    ensures s.ownerId.Some? && s.ownerId.value != "" ==> r.ownerId == s.ownerId
    ensures s.password.Some? && s.password.value != "" ==> r.password == s.password
  {
    Store(Some(EffectiveId(s)), Some(EffectivePassword(s)))
  }

  /** Initialising twice is initialising once. */
  lemma InitialiseIdempotent(s: Store)
    ensures Initialise(Initialise(s)) == Initialise(s)
  {
  }

  /** `!x.trim()` */
  predicate Missing(x: string) {
    Trim(x) == ""
  }

  lemma MissingIffBlank(x: string)
    ensures Missing(x) <==> IsBlank(x)
  {
    TrimEmptyIffBlank(x);
  }

  // ---------------------------------------------------------------------
  // Forms and screen
  // ---------------------------------------------------------------------

  datatype Mode = LoginMode | ChangePasswordMode | ChangeIdMode

  /** Every text field of the three forms. The change-password form reuses
      the login form's owner-id field. */
  datatype Form = Form(
    userId: string,
    password: string,
    oldPassword: string,
    newPassword: string,
    confirmPassword: string,
    currentIdVerify: string,
    passwordVerify: string,
    newId: string,
    confirmId: string)

  const EmptyForm := Form("", "", "", "", "", "", "", "", "")

  datatype Screen = Screen(mode: Mode, form: Form, error: string, success: string)

  /** The link buttons and "Back to Login": switch mode and clear the form
      and both notices. */
  function SwitchMode(sc: Screen, m: Mode): (r: Screen)
    ensures r.mode == m && r.error == "" && r.success == ""
    ensures r.form == EmptyForm
  {
    Screen(m, EmptyForm, "", "")
  }

  // ---------------------------------------------------------------------
  // Login
  // ---------------------------------------------------------------------

  datatype LoginError = CredentialsMissing | CredentialsInvalid

  function LoginErrorText(e: LoginError): string {
    match e
    case CredentialsMissing => "Please enter Owner ID and Password"
    case CredentialsInvalid => "Invalid Owner ID or Password. Access Denied."
  }

  /** `handleLoginSubmit`: blank fields are refused before any comparison;
      otherwise the untrimmed entries must equal the effective credentials. */
  function CheckLogin(s: Store, userId: string, password: string): (r: Option<LoginError>)
    ensures r == Some(CredentialsMissing) <==> IsBlank(userId) || IsBlank(password)
    ensures r.None? <==> !IsBlank(userId) && !IsBlank(password) && userId == EffectiveId(s) && password == EffectivePassword(s)
  {
    MissingIffBlank(userId);
    MissingIffBlank(password);
    if Missing(userId) || Missing(password) then Some(CredentialsMissing)
    else if userId == EffectiveId(s) && password == EffectivePassword(s) then None
    else Some(CredentialsInvalid)
  }

  /** The login submit on the screen: the signed-in owner on success, the
      error notice otherwise. Stored credentials are only read. */
  function SubmitLogin(sc: Screen, s: Store): (r: (Screen, Option<User>))
    ensures r.1.Some? <==> CheckLogin(s, sc.form.userId, sc.form.password).None?
    ensures r.1.Some? ==> r.1.value == Owner
    ensures r.1.None? ==> r.0 == sc.(error := LoginErrorText(CheckLogin(s, sc.form.userId, sc.form.password).value))
  {
    match CheckLogin(s, sc.form.userId, sc.form.password)
    case None => (sc.(error := ""), Some(Owner))
    case Some(e) => (sc.(error := LoginErrorText(e)), None)
  }

  // ---------------------------------------------------------------------
  // Change password
  // ---------------------------------------------------------------------

  datatype PasswordError = PasswordFieldsMissing | PasswordsDiffer | PasswordTooShort | UnknownOwnerId | WrongOldPassword

  function PasswordErrorText(e: PasswordError): string {
    match e
    case PasswordFieldsMissing => "All fields are required."
    case PasswordsDiffer => "New passwords do not match."
    case PasswordTooShort => "New password must be at least 6 characters long."
    case UnknownOwnerId => "Invalid Owner ID."
    case WrongOldPassword => "Incorrect Old Password."
  }

  predicate PasswordFieldsFilled(f: Form) {
    !IsBlank(f.userId) && !IsBlank(f.oldPassword) && !IsBlank(f.newPassword) && !IsBlank(f.confirmPassword)
  }

  /** `handleChangePasswordSubmit`: the checks in the source's order; the
      first that fails is reported and nothing is stored. On success only the
      password entry changes. */
  function ChangePassword(s: Store, f: Form): (r: (Store, Option<PasswordError>))
    ensures r.1.Some? ==> r.0 == s
    ensures r.1.None? ==> r.0 == s.(password := Some(f.newPassword))
    ensures r.1 == Some(PasswordFieldsMissing) <==> !PasswordFieldsFilled(f)
    ensures r.1 == Some(PasswordsDiffer) <==> PasswordFieldsFilled(f) && f.newPassword != f.confirmPassword
    ensures r.1 == Some(PasswordTooShort) <==>
      PasswordFieldsFilled(f) && f.newPassword == f.confirmPassword && |f.newPassword| < MinPasswordLength
    ensures r.1 == Some(UnknownOwnerId) <==>
      PasswordFieldsFilled(f) && f.newPassword == f.confirmPassword && |f.newPassword| >= MinPasswordLength
      && f.userId != EffectiveId(s)
    ensures r.1 == Some(WrongOldPassword) <==>
      PasswordFieldsFilled(f) && f.newPassword == f.confirmPassword && |f.newPassword| >= MinPasswordLength
      && f.userId == EffectiveId(s) && f.oldPassword != EffectivePassword(s)
  {
    MissingIffBlank(f.userId);
    MissingIffBlank(f.oldPassword);
    MissingIffBlank(f.newPassword);
    MissingIffBlank(f.confirmPassword);
    if Missing(f.userId) || Missing(f.oldPassword) || Missing(f.newPassword) || Missing(f.confirmPassword) then
      (s, Some(PasswordFieldsMissing))
    else if f.newPassword != f.confirmPassword then (s, Some(PasswordsDiffer))
    else if |f.newPassword| < MinPasswordLength then (s, Some(PasswordTooShort))
    else if f.userId != EffectiveId(s) then (s, Some(UnknownOwnerId))
    else if f.oldPassword != EffectivePassword(s) then (s, Some(WrongOldPassword))
    else (s.(password := Some(f.newPassword)), None)
  }

  /** After a successful change the owner id still works and the new
      password is the one that signs in; the old one stops working unless
      it was re-used. */
  lemma ChangePasswordThenLogin(s: Store, f: Form, anyPassword: string)
    requires ChangePassword(s, f).1.None?
    ensures var t := ChangePassword(s, f).0;
      && EffectiveId(t) == EffectiveId(s)
      && CheckLogin(t, f.userId, f.newPassword).None?
      && (CheckLogin(t, f.userId, anyPassword).None? ==> anyPassword == f.newPassword)
  {
  }

  /** The change-password submit on the screen: success returns to the
      login mode with a cleared form and the "updated" notice; a failure
      keeps mode and entries and shows the error. */
  function SubmitChangePassword(sc: Screen, s: Store): (r: (Screen, Store))
    ensures var (t, e) := ChangePassword(s, sc.form);
      && r.1 == t
      && (e.None? ==> r.0 == Screen(LoginMode, EmptyForm, "", "Password updated. Please login."))
      && (e.Some? ==> r.0 == sc.(error := PasswordErrorText(e.value), success := ""))
  {
    var (t, e) := ChangePassword(s, sc.form);
    if e.None? then (Screen(LoginMode, EmptyForm, "", "Password updated. Please login."), t)
    else (sc.(error := PasswordErrorText(e.value), success := ""), t)
  }

  // ---------------------------------------------------------------------
  // Change owner id
  // ---------------------------------------------------------------------

  datatype IdError = IdFieldsMissing | IdsDiffer | IdTooShort | UnknownCurrentId | WrongPassword

  function IdErrorText(e: IdError): string {
    match e
    case IdFieldsMissing => "All fields are required."
    case IdsDiffer => "New Owner IDs do not match."
    case IdTooShort => "New Owner ID must be at least 4 characters long."
    case UnknownCurrentId => "Invalid Current Owner ID."
    case WrongPassword => "Incorrect Password."
  }

  predicate IdFieldsFilled(f: Form) {
    !IsBlank(f.currentIdVerify) && !IsBlank(f.passwordVerify) && !IsBlank(f.newId) && !IsBlank(f.confirmId)
  }

  /** `handleChangeIdSubmit`: the same shape as the password change; on
      success only the id entry changes. */
  function ChangeId(s: Store, f: Form): (r: (Store, Option<IdError>))
    ensures r.1.Some? ==> r.0 == s
    ensures r.1.None? ==> r.0 == s.(ownerId := Some(f.newId))
    ensures r.1 == Some(IdFieldsMissing) <==> !IdFieldsFilled(f)
    ensures r.1 == Some(IdsDiffer) <==> IdFieldsFilled(f) && f.newId != f.confirmId
    ensures r.1 == Some(IdTooShort) <==> IdFieldsFilled(f) && f.newId == f.confirmId && |f.newId| < MinOwnerIdLength
    ensures r.1 == Some(UnknownCurrentId) <==>
      IdFieldsFilled(f) && f.newId == f.confirmId && |f.newId| >= MinOwnerIdLength
      && f.currentIdVerify != EffectiveId(s)
    ensures r.1 == Some(WrongPassword) <==>
      IdFieldsFilled(f) && f.newId == f.confirmId && |f.newId| >= MinOwnerIdLength
      && f.currentIdVerify == EffectiveId(s) && f.passwordVerify != EffectivePassword(s)
  {
    MissingIffBlank(f.currentIdVerify);
    MissingIffBlank(f.passwordVerify);
    MissingIffBlank(f.newId);
    MissingIffBlank(f.confirmId);
    if Missing(f.currentIdVerify) || Missing(f.passwordVerify) || Missing(f.newId) || Missing(f.confirmId) then
      (s, Some(IdFieldsMissing))
    else if f.newId != f.confirmId then (s, Some(IdsDiffer))
    else if |f.newId| < MinOwnerIdLength then (s, Some(IdTooShort))
    else if f.currentIdVerify != EffectiveId(s) then (s, Some(UnknownCurrentId))
    else if f.passwordVerify != EffectivePassword(s) then (s, Some(WrongPassword))
    else (s.(ownerId := Some(f.newId)), None)
  }

  /** After a successful id change the new id signs in with the unchanged
      password. */
  lemma ChangeIdThenLogin(s: Store, f: Form)
    requires ChangeId(s, f).1.None?
    ensures var t := ChangeId(s, f).0;
      && EffectivePassword(t) == EffectivePassword(s)
      && CheckLogin(t, f.newId, f.passwordVerify).None?
  {
  }

  function SubmitChangeId(sc: Screen, s: Store): (r: (Screen, Store))
    ensures var (t, e) := ChangeId(s, sc.form);
      && r.1 == t
      && (e.None? ==> r.0 == Screen(LoginMode, EmptyForm, "", "Owner ID updated. Please login."))
      && (e.Some? ==> r.0 == sc.(error := IdErrorText(e.value), success := ""))
  {
    var (t, e) := ChangeId(s, sc.form);
    if e.None? then (Screen(LoginMode, EmptyForm, "", "Owner ID updated. Please login."), t)
    else (sc.(error := IdErrorText(e.value), success := ""), t)
  }

  /** Switching mode forgets everything typed before: the screen reached
      does not depend on the one left, and submitting any of the three forms
      straight away is refused for missing fields without touching the
      store. */
  lemma SwitchModeForgets(sc1: Screen, sc2: Screen, m: Mode, s: Store)
    ensures SwitchMode(sc1, m) == SwitchMode(sc2, m)
    ensures var r := SubmitLogin(SwitchMode(sc1, LoginMode), s);
      r.1.None? && r.0.error == LoginErrorText(CredentialsMissing)
    ensures SubmitChangePassword(SwitchMode(sc1, ChangePasswordMode), s)
         == (SwitchMode(sc1, ChangePasswordMode).(error := PasswordErrorText(PasswordFieldsMissing)), s)
    ensures SubmitChangeId(SwitchMode(sc1, ChangeIdMode), s)
         == (SwitchMode(sc1, ChangeIdMode).(error := IdErrorText(IdFieldsMissing)), s)
  {
  }

  /** A successful change lands where "Back to Login" would, with the
      success notice in place: a fresh login form whatever was typed. */
  lemma SuccessScreensAreLoginSwitch(sc: Screen, s: Store)
    ensures ChangePassword(s, sc.form).1.None? ==>
      SubmitChangePassword(sc, s).0 == SwitchMode(sc, LoginMode).(success := "Password updated. Please login.")
    ensures ChangeId(s, sc.form).1.None? ==>
      SubmitChangeId(sc, s).0 == SwitchMode(sc, LoginMode).(success := "Owner ID updated. Please login.")
  {
  }
}
