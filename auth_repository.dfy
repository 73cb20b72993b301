/** AuthRepository.kt: AuthRepositoryImpl, the client's token store.  The
    persisted tokens are the two optional fields; each method takes the
    outcome of its HTTP call as a parameter (the server's reply, or the
    exception the call ends in) and records the call it sends. */
module AuthRepository {
  import opened Wrappers
  import opened ApiModels

  class AuthRepository {
    var accessToken: Option<string>
    var refreshToken: Option<string>
    /** The requests sent to the server, oldest first. */
    var calls: seq<ApiCall>

    /** A repository over whatever tokens storage already holds. */
    constructor(storedAccessToken: Option<string>, storedRefreshToken: Option<string>)
      ensures accessToken == storedAccessToken && refreshToken == storedRefreshToken && calls == []
    {
      accessToken := storedAccessToken;
      refreshToken := storedRefreshToken;
      calls := [];
    }

    /** isLoggedIn: an access token is stored. */
    predicate IsLoggedIn()
      reads this
    {
      accessToken.Some?
    }

    method SaveTokens(access: string, refresh: string)
      modifies this
      ensures accessToken == Some(access) && refreshToken == Some(refresh) && calls == old(calls)
    {
      accessToken, refreshToken := Some(access), Some(refresh);
    }

    method ClearTokens()
      modifies this
      ensures accessToken == None && refreshToken == None && calls == old(calls)
      ensures !IsLoggedIn()
    {
      accessToken, refreshToken := None, None;
    }

    /** login: on success both returned tokens are stored and the user
        returned; on failure storage is unchanged. */
    method Login(email: string, password: string, response: Result<AuthResponse, Throwable>)
      returns (r: Result<UserProfileResponse, Throwable>)
      modifies this
      ensures calls == old(calls) + [LoginCall(LoginRequest(email, password))]
      ensures response.Success? ==> && accessToken == Some(response.value.accessToken)
                                    && refreshToken == Some(response.value.refreshToken)
                                    && r == Success(response.value.user) && IsLoggedIn()
      ensures response.Failure? ==> && accessToken == old(accessToken) && refreshToken == old(refreshToken)
                                    && r == Failure(response.error)
    {
      calls := calls + [LoginCall(LoginRequest(email, password))];
      match response
      case Success(reply) =>
        SaveTokens(reply.accessToken, reply.refreshToken);
        r := Success(reply.user);
      case Failure(e) =>
        r := Failure(e);
    }

    /** register: as login, for a new account. */
    method Register(email: string, password: string, username: string, displayName: string,
                    response: Result<AuthResponse, Throwable>)
      returns (r: Result<UserProfileResponse, Throwable>)
      modifies this
      ensures calls == old(calls) + [RegisterCall(RegisterRequest(email, password, username, displayName))]
      ensures response.Success? ==> && accessToken == Some(response.value.accessToken)
                                    && refreshToken == Some(response.value.refreshToken)
                                    && r == Success(response.value.user) && IsLoggedIn()
      ensures response.Failure? ==> && accessToken == old(accessToken) && refreshToken == old(refreshToken)
                                    && r == Failure(response.error)
    {
      calls := calls + [RegisterCall(RegisterRequest(email, password, username, displayName))];
      match response
      case Success(reply) =>
        SaveTokens(reply.accessToken, reply.refreshToken);
        r := Success(reply.user);
      case Failure(e) =>
        r := Failure(e);
    }

    /** logout: tell the server only when a refresh token is stored; clear
        both tokens whether or not that call fails. */
    method Logout(serverResponse: Result<(), Throwable>) returns (r: Result<(), Throwable>)
      modifies this
      ensures accessToken == None && refreshToken == None && !IsLoggedIn()
      ensures old(refreshToken).Some? ==> calls == old(calls) + [LogoutCall(old(refreshToken).value)] && r == serverResponse
      ensures old(refreshToken).None? ==> calls == old(calls) && r == Success(())
    {
      var stored := refreshToken;
      if stored.Some? {
        calls := calls + [LogoutCall(stored.value)];
        match serverResponse
        case Success(u) =>
          ClearTokens();
          r := Success(u);
        case Failure(e) =>
          ClearTokens();
          r := Failure(e);
      } else {
        ClearTokens();
        r := Success(());
      }
    }

    /** getProfile: the server's reply; the tokens are not touched. */
    method GetProfile(response: Result<UserProfileResponse, Throwable>)
      returns (r: Result<UserProfileResponse, Throwable>)
      modifies this
      ensures calls == old(calls) + [GetProfileCall]
      ensures accessToken == old(accessToken) && refreshToken == old(refreshToken)
      ensures r == response
    {
      calls := calls + [GetProfileCall];
      r := response;
    }

    /** updateProfile: the server's reply; the tokens are not touched. */
    method UpdateProfile(displayName: Option<string>, avatarUrl: Option<string>,
                         preferences: Option<UserPreferences>,
                         response: Result<UserProfileResponse, Throwable>)
      returns (r: Result<UserProfileResponse, Throwable>)
      modifies this
      ensures calls == old(calls) + [UpdateProfileCall(UpdateProfileRequest(displayName, avatarUrl, preferences))]
      ensures accessToken == old(accessToken) && refreshToken == old(refreshToken)
      ensures r == response
    {
      calls := calls + [UpdateProfileCall(UpdateProfileRequest(displayName, avatarUrl, preferences))];
      r := response;
    }

    /** refreshTokenIfNeeded: without a stored refresh token nothing
        happens; otherwise a reply replaces both tokens and a failure clears them. */
    method RefreshTokenIfNeeded(response: Result<AuthResponse, Throwable>)
      modifies this
      ensures old(refreshToken).None? ==> && calls == old(calls) && accessToken == old(accessToken)
                                          && refreshToken == old(refreshToken)
      ensures old(refreshToken).Some? ==> calls == old(calls) + [RefreshCall(old(refreshToken).value)]
      ensures old(refreshToken).Some? && response.Success? ==>
                accessToken == Some(response.value.accessToken) && refreshToken == Some(response.value.refreshToken)
      ensures old(refreshToken).Some? && response.Failure? ==> accessToken == None && refreshToken == None
    {
      var stored := refreshToken;
      if stored.Some? {
        calls := calls + [RefreshCall(stored.value)];
        match response
        case Success(reply) => SaveTokens(reply.accessToken, reply.refreshToken);
        case Failure(_) => ClearTokens();
      }
    }
  }
}
