/** The client's copies of the server's request and response bodies
    (AuthApiService.kt), the exceptions a call can end in, and a record of
    the calls the client sends. */
module ApiModels {
  import opened Wrappers

  /** A thrown exception, of which only the optional message is read. */
  datatype Throwable = Throwable(message: Option<string>)

  /** `throwable.message ?: fallback`. */
  function MessageOr(t: Throwable, fallback: string): (m: string)
    ensures t.message.Some? ==> m == t.message.value
    ensures t.message.None? ==> m == fallback
  {
    t.message.GetOr(fallback)
  }

  datatype UserPreferences = UserPreferences(
    preferredCategories: seq<string>,
    difficultyLevel: string,
    soundEnabled: bool,
    notificationsEnabled: bool,
    profileVisibility: string)

  datatype UserProfileResponse = UserProfileResponse(
    id: string,
    username: string,
    displayName: string,
    email: string,
    avatarUrl: Option<string>,
    level: int,
    totalScore: int,
    gamesPlayed: int,
    gamesWon: int,
    winRate: real,
    rank: string,
    badges: seq<string>,
    preferences: UserPreferences,
    createdAt: string,
    lastActiveAt: string,
    isOnline: bool)

  datatype AuthResponse = AuthResponse(
    accessToken: string,
    refreshToken: string,
    user: UserProfileResponse,
    expiresIn: int)

  datatype LoginRequest = LoginRequest(email: string, password: string)

  datatype RegisterRequest = RegisterRequest(email: string, password: string, username: string, displayName: string)

  datatype UpdateProfileRequest = UpdateProfileRequest(
    displayName: Option<string>,
    avatarUrl: Option<string>,
    preferences: Option<UserPreferences>)

  /** One HTTP request of AuthApiService, with its body. */
  datatype ApiCall =
    | LoginCall(login: LoginRequest)
    | RegisterCall(register: RegisterRequest)
    | LogoutCall(logoutToken: string)
    | RefreshCall(refreshToken: string)
    | GetProfileCall
    | UpdateProfileCall(update: UpdateProfileRequest)
}
