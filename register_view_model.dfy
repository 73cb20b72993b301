/** RegisterViewModel.kt: the registration screen's intent handling and
    its field validators. */
module RegisterViewModel {
  import opened Wrappers
  import opened Ascii
  import opened ApiModels
  import opened RegisterContract
  import opened ClientValidation
  import MviBase
  import AuthRepository

  const UsernameRequiredMessage := "Username is required"
  const UsernameTooShortMessage := "Username must be at least 3 characters"
  const UsernameCharactersMessage := "Username can only contain letters, numbers, and underscores"
  const DisplayNameRequiredMessage := "Display name is required"
  const DisplayNameTooShortMessage := "Display name must be at least 2 characters"
  const ConfirmPasswordRequiredMessage := "Confirm password is required"
  const PasswordMismatchMessage := "Passwords don't match"
  const RegistrationFailedMessage := "Registration failed"

  /** validateUsername: non-blank, at least 3 characters, only
      [a-zA-Z0-9_]; there is no upper bound on the length. */
  function ValidateUsername(username: string): (r: Option<string>)
    ensures r.None? <==> !IsBlank(username) && |username| >= 3 && MatchesWordPattern(username)
    ensures IsBlank(username) ==> r == Some(UsernameRequiredMessage)
    ensures !IsBlank(username) && |username| < 3 ==> r == Some(UsernameTooShortMessage)
    ensures !IsBlank(username) && |username| >= 3 && !MatchesWordPattern(username) ==> r == Some(UsernameCharactersMessage)
  {
    if IsBlank(username) then Some(UsernameRequiredMessage)
    else if |username| < 3 then Some(UsernameTooShortMessage)
    else if !MatchesWordPattern(username) then Some(UsernameCharactersMessage)
    else None
  }

  /** validateDisplayName: non-blank and at least 2 characters. */
  function ValidateDisplayName(displayName: string): (r: Option<string>)
    ensures r.None? <==> !IsBlank(displayName) && |displayName| >= 2
    ensures IsBlank(displayName) ==> r == Some(DisplayNameRequiredMessage)
    ensures !IsBlank(displayName) && |displayName| < 2 ==> r == Some(DisplayNameTooShortMessage)
  {
    if IsBlank(displayName) then Some(DisplayNameRequiredMessage)
    else if |displayName| < 2 then Some(DisplayNameTooShortMessage)
    else None
  }

  /** validateConfirmPassword: a non-blank confirmation equal to the password. */
  function ValidateConfirmPassword(password: string, confirmPassword: string): (r: Option<string>)
    ensures r.None? <==> !IsBlank(confirmPassword) && password == confirmPassword
    ensures IsBlank(confirmPassword) ==> r == Some(ConfirmPasswordRequiredMessage)
    ensures !IsBlank(confirmPassword) && password != confirmPassword ==> r == Some(PasswordMismatchMessage)
  {
    if IsBlank(confirmPassword) then Some(ConfirmPasswordRequiredMessage)
    else if password != confirmPassword then Some(PasswordMismatchMessage)
    else None
  }

  /** The coroutine performRegistration starts, with the fields it read. */
  datatype RegisterJob = RegisterJob(email: string, password: string, username: string, displayName: string)

  /** All five validators of performRegistration pass. */
  predicate InputAccepted(s: State) {
    && ValidateEmail(s.email).None? && ValidateUsername(s.username).None?
    && ValidateDisplayName(s.displayName).None? && ValidatePassword(s.password).None?
    && ValidateConfirmPassword(s.password, s.confirmPassword).None?
  }

  /** The mismatch error PasswordChanged shows: only once a confirmation
      has been typed and it differs from the new password. */
  function MismatchAfterPasswordChange(confirmPassword: string, password: string): Option<string> {
    if |confirmPassword| > 0 && confirmPassword != password then Some(PasswordMismatchMessage) else None
  }

  /** The state after handleIntent's synchronous setState calls. */
  function Reduce(s: State, intent: Intent): (t: State)
    ensures intent.EmailChanged? ==>
              && t.email == intent.email && t.emailError.None? && t.registerError.None?
              && t.(email := s.email, emailError := s.emailError, registerError := s.registerError) == s
    ensures intent.UsernameChanged? ==>
              && t.username == intent.username && t.usernameError.None? && t.registerError.None?
              && t.(username := s.username, usernameError := s.usernameError, registerError := s.registerError) == s
    ensures intent.DisplayNameChanged? ==>
              && t.displayName == intent.displayName && t.displayNameError.None? && t.registerError.None?
              && t.(displayName := s.displayName, displayNameError := s.displayNameError,
                    registerError := s.registerError) == s
    ensures intent.PasswordChanged? ==>
              && t.password == intent.password && t.passwordError.None? && t.registerError.None?
              && (t.confirmPasswordError.Some? <==>
                    |s.confirmPassword| > 0 && s.confirmPassword != intent.password)
              && (t.confirmPasswordError.Some? ==> t.confirmPasswordError == Some(PasswordMismatchMessage))
              && t.(password := s.password, passwordError := s.passwordError,
                    confirmPasswordError := s.confirmPasswordError, registerError := s.registerError) == s
    ensures intent.ConfirmPasswordChanged? ==>
              && t.confirmPassword == intent.confirmPassword && t.registerError.None?
              && (t.confirmPasswordError.Some? <==> s.password != intent.confirmPassword)
              && (t.confirmPasswordError.Some? ==> t.confirmPasswordError == Some(PasswordMismatchMessage))
              && t.(confirmPassword := s.confirmPassword, confirmPasswordError := s.confirmPasswordError,
                    registerError := s.registerError) == s
    ensures intent.TogglePasswordVisibility? ==>
              t.isPasswordVisible == !s.isPasswordVisible && t.(isPasswordVisible := s.isPasswordVisible) == s
    ensures intent.ToggleConfirmPasswordVisibility? ==>
              && t.isConfirmPasswordVisible == !s.isConfirmPasswordVisible
              && t.(isConfirmPasswordVisible := s.isConfirmPasswordVisible) == s
    ensures intent.ClearErrors? ==>
              && NoErrors(t)
              && t.(emailError := s.emailError, usernameError := s.usernameError,
                    displayNameError := s.displayNameError, passwordError := s.passwordError,
                    confirmPasswordError := s.confirmPasswordError, registerError := s.registerError) == s
    ensures intent.RegisterClicked? && !InputAccepted(s) ==>
              && t.emailError == ValidateEmail(s.email)
              && t.usernameError == ValidateUsername(s.username)
              && t.displayNameError == ValidateDisplayName(s.displayName)
              && t.passwordError == ValidatePassword(s.password)
              && t.confirmPasswordError == ValidateConfirmPassword(s.password, s.confirmPassword)
              && t.(emailError := s.emailError, usernameError := s.usernameError,
                    displayNameError := s.displayNameError, passwordError := s.passwordError,
                    confirmPasswordError := s.confirmPasswordError) == s
    ensures intent.RegisterClicked? && InputAccepted(s) ==> t.isLoading && t.(isLoading := s.isLoading) == s
  {
    match intent
    case EmailChanged(email) => s.(email := email, emailError := None, registerError := None)
    case UsernameChanged(username) => s.(username := username, usernameError := None, registerError := None)
    case DisplayNameChanged(displayName) =>
      s.(displayName := displayName, displayNameError := None, registerError := None)
    case PasswordChanged(password) =>
      s.(password := password, passwordError := None,
         confirmPasswordError := MismatchAfterPasswordChange(s.confirmPassword, password), registerError := None)
    case ConfirmPasswordChanged(confirmPassword) =>
      s.(confirmPassword := confirmPassword,
         confirmPasswordError := if s.password != confirmPassword then Some(PasswordMismatchMessage) else None,
         registerError := None)
    case TogglePasswordVisibility => s.(isPasswordVisible := !s.isPasswordVisible)
    case ToggleConfirmPasswordVisibility => s.(isConfirmPasswordVisible := !s.isConfirmPasswordVisible)
    case RegisterClicked =>
      if InputAccepted(s) then s.(isLoading := true)
      else s.(emailError := ValidateEmail(s.email), usernameError := ValidateUsername(s.username),
              displayNameError := ValidateDisplayName(s.displayName), passwordError := ValidatePassword(s.password),
              confirmPasswordError := ValidateConfirmPassword(s.password, s.confirmPassword))
    case ClearErrors =>
      s.(emailError := None, usernameError := None, displayNameError := None,
         passwordError := None, confirmPasswordError := None, registerError := None)
  }

  /** Each visibility toggle, applied twice, restores the state. */
  lemma TogglesTwice(s: State)
    ensures Reduce(Reduce(s, TogglePasswordVisibility), TogglePasswordVisibility) == s
    ensures Reduce(Reduce(s, ToggleConfirmPasswordVisibility), ToggleConfirmPasswordVisibility) == s
  {
  }

  /** Clearing the confirmation to "" shows a mismatch (the password is
      compared as is), while changing the password with no confirmation
      typed shows none. */
  lemma EmptyConfirmation(s: State, password: string)
    ensures s.password != "" ==> Reduce(s, ConfirmPasswordChanged("")).confirmPasswordError == Some(PasswordMismatchMessage)
    ensures s.confirmPassword == "" ==> Reduce(s, PasswordChanged(password)).confirmPasswordError == None
  {
  }

  class RegisterViewModel {
    const base: MviBase.MviViewModel<State, SideEffect, RegisterJob>
    const authRepository: AuthRepository.AuthRepository

    constructor(authRepository: AuthRepository.AuthRepository)
      ensures this.authRepository == authRepository && fresh(base)
      ensures base.state == InitialState() && base.sideEffects == [] && base.launched == []
    {
      this.authRepository := authRepository;
      base := new MviBase.MviViewModel(InitialState());
    }

    /** handleIntent: the state becomes Reduce(state, intent); only
        RegisterClicked with accepted input starts the registration coroutine. */
    method HandleIntent(intent: Intent)
      modifies base
      ensures base.state == Reduce(old(base.state), intent)
      ensures base.sideEffects == old(base.sideEffects)
      ensures base.launched == old(base.launched) +
                (if intent.RegisterClicked? && InputAccepted(old(base.state))
                 then [RegisterJob(old(base.state).email, old(base.state).password,
                                   old(base.state).username, old(base.state).displayName)]
                 else [])
    {
      match intent
      case EmailChanged(email) =>
        base.SetState((s: State) => s.(email := email, emailError := None, registerError := None));
      case UsernameChanged(username) =>
        base.SetState((s: State) => s.(username := username, usernameError := None, registerError := None));
      case DisplayNameChanged(displayName) =>
        base.SetState((s: State) => s.(displayName := displayName, displayNameError := None, registerError := None));
      case PasswordChanged(password) =>
        base.SetState((s: State) => s.(password := password, passwordError := None,
                                       confirmPasswordError := MismatchAfterPasswordChange(s.confirmPassword, password),
                                       registerError := None));
      case ConfirmPasswordChanged(confirmPassword) =>
        base.SetState((s: State) => s.(confirmPassword := confirmPassword,
                                       confirmPasswordError := if s.password != confirmPassword
                                                               then Some(PasswordMismatchMessage) else None,
                                       registerError := None));
      case TogglePasswordVisibility =>
        base.SetState((s: State) => s.(isPasswordVisible := !s.isPasswordVisible));
      case ToggleConfirmPasswordVisibility =>
        base.SetState((s: State) => s.(isConfirmPasswordVisible := !s.isConfirmPasswordVisible));
      case RegisterClicked =>
        PerformRegistration();
      case ClearErrors =>
        base.SetState((s: State) => s.(emailError := None, usernameError := None, displayNameError := None,
                                       passwordError := None, confirmPasswordError := None, registerError := None));
    }

    /** performRegistration: run the five validators; store their results
        if any fails, else set isLoading and start the coroutine. */
    method PerformRegistration()
      modifies base
      ensures base.state == Reduce(old(base.state), RegisterClicked)
      ensures base.sideEffects == old(base.sideEffects)
      ensures base.launched == old(base.launched) +
                (if InputAccepted(old(base.state))
                 then [RegisterJob(old(base.state).email, old(base.state).password,
                                   old(base.state).username, old(base.state).displayName)]
                 else [])
    {
      var current := base.state;
      var emailError := ValidateEmail(current.email);
      var usernameError := ValidateUsername(current.username);
      var displayNameError := ValidateDisplayName(current.displayName);
      var passwordError := ValidatePassword(current.password);
      var confirmPasswordError := ValidateConfirmPassword(current.password, current.confirmPassword);
      if emailError.Some? || usernameError.Some? || displayNameError.Some? ||
         passwordError.Some? || confirmPasswordError.Some? {
        base.SetState((s: State) => s.(emailError := emailError, usernameError := usernameError,
                                       displayNameError := displayNameError, passwordError := passwordError,
                                       confirmPasswordError := confirmPasswordError));
        return;
      }
      base.SetState((s: State) => s.(isLoading := true));
      base.Launch(RegisterJob(current.email, current.password, current.username, current.displayName));
    }

    /** The k-th started coroutine runs: it calls the repository's register;
        success clears isLoading and navigates home, failure clears
        isLoading and shows the message, or "Registration failed". */
    method RunRegisterJob(k: nat, response: Result<AuthResponse, Throwable>)
      requires k < |base.launched|
      modifies base, authRepository
      ensures var job := old(base.launched)[k];
              authRepository.calls == old(authRepository.calls) +
                [RegisterCall(RegisterRequest(job.email, job.password, job.username, job.displayName))]
      ensures base.launched == old(base.launched)[..k] + old(base.launched)[k + 1..]
      ensures response.Success? ==>
                && base.state == old(base.state).(isLoading := false)
                && base.sideEffects == old(base.sideEffects) + [NavigateToHome]
                && authRepository.IsLoggedIn()
      ensures response.Failure? ==>
                var message := MessageOr(response.error, RegistrationFailedMessage);
                && base.state == old(base.state).(isLoading := false, registerError := Some(message))
                && base.sideEffects == old(base.sideEffects) + [ShowError(message)]
                && authRepository.accessToken == old(authRepository.accessToken)
                && authRepository.refreshToken == old(authRepository.refreshToken)
    {
      var job := base.TakeJob(k);
      var result := authRepository.Register(job.email, job.password, job.username, job.displayName, response);
      match result
      case Success(_) =>
        base.SetState((s: State) => s.(isLoading := false));
        base.EmitSideEffect(NavigateToHome);
      case Failure(e) =>
        var message := MessageOr(e, RegistrationFailedMessage);
        base.SetState((s: State) => s.(isLoading := false, registerError := Some(message)));
        base.EmitSideEffect(ShowError(message));
    }
  }
}
