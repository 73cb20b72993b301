/** AuthContract.kt, LoginContract: the login screen's state, intents and side effects. */
module LoginContract {
  import opened Wrappers

  datatype State = State(
    email: string,
    password: string,
    isLoading: bool,
    emailError: Option<string>,
    passwordError: Option<string>,
    loginError: Option<string>,
    isPasswordVisible: bool)

  /** State() with every field at its declared default. */
  function InitialState(): (s: State)
    ensures s.email == "" && s.password == ""
    ensures s.emailError.None? && s.passwordError.None? && s.loginError.None?
    ensures !s.isLoading && !s.isPasswordVisible
  {
    State("", "", false, None, None, None, false)
  }

  datatype Intent =
    | EmailChanged(email: string)
    | PasswordChanged(password: string)
    | TogglePasswordVisibility
    | LoginClicked
    | ClearErrors

  datatype SideEffect = NavigateToHome | ShowError(message: string)
}

/** AuthContract.kt, RegisterContract: the registration screen's state, intents and side effects. */
module RegisterContract {
  import opened Wrappers

  datatype State = State(
    email: string,
    username: string,
    displayName: string,
    password: string,
    confirmPassword: string,
    isLoading: bool,
    emailError: Option<string>,
    usernameError: Option<string>,
    displayNameError: Option<string>,
    passwordError: Option<string>,
    confirmPasswordError: Option<string>,
    registerError: Option<string>,
    isPasswordVisible: bool,
    isConfirmPasswordVisible: bool)

  /** No error is shown. */
  predicate NoErrors(s: State) {
    && s.emailError.None? && s.usernameError.None? && s.displayNameError.None?
    && s.passwordError.None? && s.confirmPasswordError.None? && s.registerError.None?
  }

  /** State() with every field at its declared default. */
  function InitialState(): (s: State)
    ensures s.email == "" && s.username == "" && s.displayName == "" && s.password == "" && s.confirmPassword == ""
    ensures NoErrors(s)
    ensures !s.isLoading && !s.isPasswordVisible && !s.isConfirmPasswordVisible
  {
    State("", "", "", "", "", false, None, None, None, None, None, None, false, false)
  }

  datatype Intent =
    | EmailChanged(email: string)
    | UsernameChanged(username: string)
    | DisplayNameChanged(displayName: string)
    | PasswordChanged(password: string)
    | ConfirmPasswordChanged(confirmPassword: string)
    | TogglePasswordVisibility
    | ToggleConfirmPasswordVisibility
    | RegisterClicked
    | ClearErrors

  datatype SideEffect = NavigateToHome | ShowError(message: string)
}

/** AuthContract.kt, ProfileContract: the profile screen's state, intents and side effects. */
module ProfileContract {
  import opened Wrappers
  import opened ApiModels

  datatype State = State(
    userProfile: Option<UserProfileResponse>,
    isLoading: bool,
    isEditing: bool,
    displayName: string,
    avatarUrl: Option<string>,
    error: Option<string>,
    isUpdating: bool)

  /** State() with every field at its declared default. */
  function InitialState(): (s: State)
    ensures s.userProfile.None? && !s.isLoading && !s.isEditing && !s.isUpdating
    ensures s.displayName == "" && s.avatarUrl.None? && s.error.None?
  {
    State(None, false, false, "", None, None, false)
  }

  datatype Intent =
    | LoadProfile
    | StartEditing
    | CancelEditing
    | DisplayNameChanged(displayName: string)
    | AvatarUrlChanged(avatarUrl: string)
    | SaveProfile
    | Logout
    | ClearError

  datatype SideEffect = NavigateToAuth | ShowError(message: string) | ShowSuccess(message: string)
}
