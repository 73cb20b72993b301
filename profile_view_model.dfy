/** ProfileViewModel.kt: the profile screen's intent handling.  Creating
    the view-model loads the profile (its init block). */
module ProfileViewModel {
  import opened Wrappers
  import opened Ascii
  import opened ApiModels
  import opened ProfileContract
  import MviBase
  import AuthRepository

  const LoadFailedMessage := "Failed to load profile"
  const EmptyDisplayNameMessage := "Display name cannot be empty"
  const UpdateFailedMessage := "Failed to update profile"
  const UpdatedMessage := "Profile updated successfully"

  /** The coroutines the profile screen starts: loading the profile, saving
      the edited fields it read, and logging out. */
  datatype ProfileJob =
    | LoadProfileJob
    | SaveProfileJob(displayName: string, avatarUrl: Option<string>)
    | LogoutJob

  /** saveProfile's check: the edited display name is not blank. */
  predicate SaveAccepted(s: State) { !IsBlank(s.displayName) }

  /** The state after handleIntent's synchronous setState calls. */
  function Reduce(s: State, intent: Intent): (t: State)
    ensures intent.LoadProfile? ==> t.isLoading && t.(isLoading := s.isLoading) == s
    ensures intent.StartEditing? ==>
              && t.isEditing
              && t.displayName == (if s.userProfile.Some? then s.userProfile.value.displayName else "")
              && t.avatarUrl == (if s.userProfile.Some? then s.userProfile.value.avatarUrl else None)
              && t.(isEditing := s.isEditing, displayName := s.displayName, avatarUrl := s.avatarUrl) == s
    ensures intent.CancelEditing? ==>
              && !t.isEditing && t.displayName == "" && t.avatarUrl.None? && t.error.None?
              && t.(isEditing := s.isEditing, displayName := s.displayName, avatarUrl := s.avatarUrl,
                    error := s.error) == s
    ensures intent.DisplayNameChanged? ==>
              t.displayName == intent.displayName && t.error.None?
              && t.(displayName := s.displayName, error := s.error) == s
    ensures intent.AvatarUrlChanged? ==>
              t.avatarUrl == Some(intent.avatarUrl) && t.error.None?
              && t.(avatarUrl := s.avatarUrl, error := s.error) == s
    ensures intent.SaveProfile? && !SaveAccepted(s) ==>
              t == s.(error := Some(EmptyDisplayNameMessage)) && t.isUpdating == s.isUpdating
    ensures intent.SaveProfile? && SaveAccepted(s) ==> t.isUpdating && t.(isUpdating := s.isUpdating) == s
    ensures intent.Logout? ==> t == s
    ensures intent.ClearError? ==> t.error.None? && t.(error := s.error) == s
  {
    match intent
    case LoadProfile => s.(isLoading := true)
    case StartEditing =>
      s.(isEditing := true,
         displayName := if s.userProfile.Some? then s.userProfile.value.displayName else "",
         avatarUrl := if s.userProfile.Some? then s.userProfile.value.avatarUrl else None)
    case CancelEditing => s.(isEditing := false, displayName := "", avatarUrl := None, error := None)
    case DisplayNameChanged(displayName) => s.(displayName := displayName, error := None)
    case AvatarUrlChanged(avatarUrl) => s.(avatarUrl := Some(avatarUrl), error := None)
    case SaveProfile =>
      if SaveAccepted(s) then s.(isUpdating := true) else s.(error := Some(EmptyDisplayNameMessage))
    case Logout => s
    case ClearError => s.(error := None)
  }

  /** The coroutine handleIntent starts, if any. */
  function Started(s: State, intent: Intent): (jobs: seq<ProfileJob>)
    ensures |jobs| <= 1
    ensures intent.SaveProfile? && !SaveAccepted(s) ==> jobs == []
    ensures intent.SaveProfile? && SaveAccepted(s) ==> jobs == [SaveProfileJob(s.displayName, s.avatarUrl)]
  {
    match intent
    case LoadProfile => [LoadProfileJob]
    case SaveProfile => if SaveAccepted(s) then [SaveProfileJob(s.displayName, s.avatarUrl)] else []
    case Logout => [LogoutJob]
    case _ => []
  }

  class ProfileViewModel {
    const base: MviBase.MviViewModel<State, SideEffect, ProfileJob>
    const authRepository: AuthRepository.AuthRepository

    /** The initial state, then the init block's LoadProfile. */
    constructor(authRepository: AuthRepository.AuthRepository)
      ensures this.authRepository == authRepository && fresh(base)
      ensures base.state == InitialState().(isLoading := true)
      ensures base.sideEffects == [] && base.launched == [LoadProfileJob]
    {
      this.authRepository := authRepository;
      base := new MviBase.MviViewModel(InitialState());
      new;
      HandleIntent(Intent.LoadProfile);
    }

    /** handleIntent: the state becomes Reduce(state, intent), and the
        intent's coroutine, if any, is started. */
    method HandleIntent(intent: Intent)
      modifies base
      ensures base.state == Reduce(old(base.state), intent)
      ensures base.sideEffects == old(base.sideEffects)
      ensures base.launched == old(base.launched) + Started(old(base.state), intent)
    {
      match intent
      case LoadProfile =>
        LoadProfile();
      case StartEditing =>
        var currentProfile := base.state.userProfile;
        base.SetState((s: State) => s.(isEditing := true,
                                       displayName := if currentProfile.Some? then currentProfile.value.displayName else "",
                                       avatarUrl := if currentProfile.Some? then currentProfile.value.avatarUrl else None));
      case CancelEditing =>
        base.SetState((s: State) => s.(isEditing := false, displayName := "", avatarUrl := None, error := None));
      case DisplayNameChanged(displayName) =>
        base.SetState((s: State) => s.(displayName := displayName, error := None));
      case AvatarUrlChanged(avatarUrl) =>
        base.SetState((s: State) => s.(avatarUrl := Some(avatarUrl), error := None));
      case SaveProfile =>
        SaveProfile();
      case Logout =>
        base.Launch(LogoutJob);
      case ClearError =>
        base.SetState((s: State) => s.(error := None));
    }

    /** loadProfile: set isLoading and start loading. */
    method LoadProfile()
      modifies base
      ensures base.state == old(base.state).(isLoading := true)
      ensures base.sideEffects == old(base.sideEffects) && base.launched == old(base.launched) + [LoadProfileJob]
    {
      base.SetState((s: State) => s.(isLoading := true));
      base.Launch(LoadProfileJob);
    }

    /** saveProfile: a blank display name only shows an error; otherwise
        set isUpdating and start saving the edited name and avatar. */
    method SaveProfile()
      modifies base
      ensures base.state == Reduce(old(base.state), Intent.SaveProfile)
      ensures base.sideEffects == old(base.sideEffects)
      ensures base.launched == old(base.launched) + Started(old(base.state), Intent.SaveProfile)
    {
      var current := base.state;
      if IsBlank(current.displayName) {
        base.SetState((s: State) => s.(error := Some(EmptyDisplayNameMessage)));
        return;
      }
      base.SetState((s: State) => s.(isUpdating := true));
      base.Launch(SaveProfileJob(current.displayName, current.avatarUrl));
    }

    /** A started load runs: a profile is stored and the error cleared, or
        the error is shown ("Failed to load profile" without a message). */
    method RunLoadProfileJob(k: nat, response: Result<UserProfileResponse, Throwable>)
      requires k < |base.launched| && base.launched[k] == LoadProfileJob
      modifies base, authRepository
      ensures base.launched == old(base.launched)[..k] + old(base.launched)[k + 1..]
      ensures authRepository.calls == old(authRepository.calls) + [GetProfileCall]
      ensures authRepository.accessToken == old(authRepository.accessToken)
      ensures authRepository.refreshToken == old(authRepository.refreshToken)
      ensures response.Success? ==>
                && base.state == old(base.state).(userProfile := Some(response.value), isLoading := false, error := None)
                && base.sideEffects == old(base.sideEffects)
      ensures response.Failure? ==>
                var message := MessageOr(response.error, LoadFailedMessage);
                && base.state == old(base.state).(isLoading := false, error := Some(message))
                && base.sideEffects == old(base.sideEffects) + [ShowError(message)]
    {
      var _ := base.TakeJob(k);
      var result := authRepository.GetProfile(response);
      match result
      case Success(profile) =>
        base.SetState((s: State) => s.(userProfile := Some(profile), isLoading := false, error := None));
      case Failure(e) =>
        var message := MessageOr(e, LoadFailedMessage);
        base.SetState((s: State) => s.(isLoading := false, error := Some(message)));
        base.EmitSideEffect(ShowError(message));
    }

    /** A started save runs with the fields it captured and no preferences:
        success stores the updated profile and leaves editing, failure shows
        the error ("Failed to update profile" without a message). */
    method RunSaveProfileJob(k: nat, response: Result<UserProfileResponse, Throwable>)
      requires k < |base.launched| && base.launched[k].SaveProfileJob?
      modifies base, authRepository
      ensures var job := old(base.launched)[k];
              authRepository.calls == old(authRepository.calls) +
                [UpdateProfileCall(UpdateProfileRequest(Some(job.displayName), job.avatarUrl, None))]
      ensures base.launched == old(base.launched)[..k] + old(base.launched)[k + 1..]
      ensures authRepository.accessToken == old(authRepository.accessToken)
      ensures authRepository.refreshToken == old(authRepository.refreshToken)
      ensures response.Success? ==>
                && base.state == old(base.state).(userProfile := Some(response.value), isUpdating := false,
                                                  isEditing := false, error := None)
                && base.sideEffects == old(base.sideEffects) + [ShowSuccess(UpdatedMessage)]
      ensures response.Failure? ==>
                var message := MessageOr(response.error, UpdateFailedMessage);
                && base.state == old(base.state).(isUpdating := false, error := Some(message))
                && base.sideEffects == old(base.sideEffects) + [ShowError(message)]
    {
      var job := base.TakeJob(k);
      var result := authRepository.UpdateProfile(Some(job.displayName), job.avatarUrl, None, response);
      match result
      case Success(updated) =>
        base.SetState((s: State) => s.(userProfile := Some(updated), isUpdating := false, isEditing := false, error := None));
        base.EmitSideEffect(ShowSuccess(UpdatedMessage));
      case Failure(e) =>
        var message := MessageOr(e, UpdateFailedMessage);
        base.SetState((s: State) => s.(isUpdating := false, error := Some(message)));
        base.EmitSideEffect(ShowError(message));
    }

    /** A started logout runs: the repository clears the tokens, and the
        screen navigates to the auth screen whether or not the server call failed. */
    method RunLogoutJob(k: nat, serverResponse: Result<(), Throwable>)
      requires k < |base.launched| && base.launched[k] == LogoutJob
      modifies base, authRepository
      ensures base.launched == old(base.launched)[..k] + old(base.launched)[k + 1..]
      ensures base.state == old(base.state)
      ensures base.sideEffects == old(base.sideEffects) + [NavigateToAuth]
      ensures !authRepository.IsLoggedIn() && authRepository.refreshToken.None?
    {
      var _ := base.TakeJob(k);
      var result := authRepository.Logout(serverResponse);
      match result
      case Success(_) =>
        base.EmitSideEffect(NavigateToAuth);
      case Failure(_) =>
        base.EmitSideEffect(NavigateToAuth);
    }
  }
}
