/** LoginViewModel.kt: the login screen's intent handling. */
module LoginViewModel {
  import opened Wrappers
  import opened ApiModels
  import opened LoginContract
  import opened ClientValidation
  import MviBase
  import AuthRepository

  const LoginFailedMessage := "Login failed"

  /** The coroutine performLogin starts, with the credentials it read. */
  datatype LoginJob = LoginJob(email: string, password: string)

  /** performLogin's validation passes. */
  predicate InputAccepted(s: State) {
    ValidateEmail(s.email).None? && ValidatePassword(s.password).None?
  }

  /** The state after handleIntent's synchronous setState calls.  Each
      editing intent sets its field and clears only that field's error and
      loginError; the toggle flips only the visibility flag; ClearErrors
      clears only the three errors; LoginClicked either stores the two
      validation results or sets isLoading. */
  function Reduce(s: State, intent: Intent): (t: State)
    ensures intent.EmailChanged? ==>
              && t.email == intent.email && t.emailError.None? && t.loginError.None?
              && t.(email := s.email, emailError := s.emailError, loginError := s.loginError) == s
    ensures intent.PasswordChanged? ==>
              && t.password == intent.password && t.passwordError.None? && t.loginError.None?
              && t.(password := s.password, passwordError := s.passwordError, loginError := s.loginError) == s
    ensures intent.TogglePasswordVisibility? ==>
              t.isPasswordVisible == !s.isPasswordVisible && t.(isPasswordVisible := s.isPasswordVisible) == s
    ensures intent.ClearErrors? ==>
              && t.emailError.None? && t.passwordError.None? && t.loginError.None?
              && t.(emailError := s.emailError, passwordError := s.passwordError, loginError := s.loginError) == s
    ensures intent.LoginClicked? && !InputAccepted(s) ==>
              && t.emailError == ValidateEmail(s.email) && t.passwordError == ValidatePassword(s.password)
              && t.(emailError := s.emailError, passwordError := s.passwordError) == s
    ensures intent.LoginClicked? && InputAccepted(s) ==> t.isLoading && t.(isLoading := s.isLoading) == s
  {
    match intent
    case EmailChanged(email) => s.(email := email, emailError := None, loginError := None)
    case PasswordChanged(password) => s.(password := password, passwordError := None, loginError := None)
    case TogglePasswordVisibility => s.(isPasswordVisible := !s.isPasswordVisible)
    case LoginClicked =>
      if InputAccepted(s) then s.(isLoading := true)
      else s.(emailError := ValidateEmail(s.email), passwordError := ValidatePassword(s.password))
    case ClearErrors => s.(emailError := None, passwordError := None, loginError := None)
  }

  /** Toggling the password's visibility twice restores the state. */
  lemma ToggleTwice(s: State)
    ensures Reduce(Reduce(s, TogglePasswordVisibility), TogglePasswordVisibility) == s
  {
  }

  /** A click with a blank email, an email without '@', a blank password or
      a password under 6 characters shows an error and does not start loading. */
  lemma RejectedClickShowsError(s: State)
    requires !InputAccepted(s)
    ensures var t := Reduce(s, LoginClicked);
            (t.emailError.Some? || t.passwordError.Some?) && t.isLoading == s.isLoading
  {
  }

  class LoginViewModel {
    const base: MviBase.MviViewModel<State, SideEffect, LoginJob>
    const authRepository: AuthRepository.AuthRepository

    constructor(authRepository: AuthRepository.AuthRepository)
      ensures this.authRepository == authRepository && fresh(base)
      ensures base.state == InitialState() && base.sideEffects == [] && base.launched == []
    {
      this.authRepository := authRepository;
      base := new MviBase.MviViewModel(InitialState());
    }

    /** handleIntent: the state becomes Reduce(state, intent); only
        LoginClicked with accepted input starts the login coroutine. */
    method HandleIntent(intent: Intent)
      modifies base
      ensures base.state == Reduce(old(base.state), intent)
      ensures base.sideEffects == old(base.sideEffects)
      ensures base.launched == old(base.launched) +
                (if intent.LoginClicked? && InputAccepted(old(base.state))
                 then [LoginJob(old(base.state).email, old(base.state).password)] else [])
    {
      match intent
      case EmailChanged(email) =>
        base.SetState((s: State) => s.(email := email, emailError := None, loginError := None));
      case PasswordChanged(password) =>
        base.SetState((s: State) => s.(password := password, passwordError := None, loginError := None));
      case TogglePasswordVisibility =>
        base.SetState((s: State) => s.(isPasswordVisible := !s.isPasswordVisible));
      case LoginClicked =>
        PerformLogin();
      case ClearErrors =>
        base.SetState((s: State) => s.(emailError := None, passwordError := None, loginError := None));
    }

    /** performLogin: validate, then either store the errors or set
        isLoading and start the login coroutine. */
    method PerformLogin()
      modifies base
      ensures base.state == Reduce(old(base.state), LoginClicked)
      ensures base.sideEffects == old(base.sideEffects)
      ensures base.launched == old(base.launched) +
                (if InputAccepted(old(base.state)) then [LoginJob(old(base.state).email, old(base.state).password)] else [])
    {
      var current := base.state;
      var emailError := ValidateEmail(current.email);
      var passwordError := ValidatePassword(current.password);
      if emailError.Some? || passwordError.Some? {
        base.SetState((s: State) => s.(emailError := emailError, passwordError := passwordError));
        return;
      }
      base.SetState((s: State) => s.(isLoading := true));
      base.Launch(LoginJob(current.email, current.password));
    }

    /** The k-th started coroutine runs: it calls the repository's login
        with the captured credentials; success clears isLoading and
        navigates home, failure clears isLoading and shows the message,
        or "Login failed" when there is none. */
    method RunLoginJob(k: nat, response: Result<AuthResponse, Throwable>)
      requires k < |base.launched|
      modifies base, authRepository
      ensures var job := old(base.launched)[k];
              authRepository.calls == old(authRepository.calls) + [LoginCall(LoginRequest(job.email, job.password))]
      ensures base.launched == old(base.launched)[..k] + old(base.launched)[k + 1..]
      ensures response.Success? ==>
                && base.state == old(base.state).(isLoading := false)
                && base.sideEffects == old(base.sideEffects) + [NavigateToHome]
                && authRepository.IsLoggedIn()
      ensures response.Failure? ==>
                var message := MessageOr(response.error, LoginFailedMessage);
                && base.state == old(base.state).(isLoading := false, loginError := Some(message))
                && base.sideEffects == old(base.sideEffects) + [ShowError(message)]
                && authRepository.accessToken == old(authRepository.accessToken)
                && authRepository.refreshToken == old(authRepository.refreshToken)
    {
      var job := base.TakeJob(k);
      var result := authRepository.Login(job.email, job.password, response);
      match result
      case Success(_) =>
        base.SetState((s: State) => s.(isLoading := false));
        base.EmitSideEffect(NavigateToHome);
      case Failure(e) =>
        var message := MessageOr(e, LoginFailedMessage);
        base.SetState((s: State) => s.(isLoading := false, loginError := Some(message)));
        base.EmitSideEffect(ShowError(message));
    }
  }
}
