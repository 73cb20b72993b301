/** UserService.kt: registration, login, token refresh, logout, profile
    reads and updates over the three tables.  Each operation runs in one
    transaction: an operation that fails leaves every table unchanged.

    The current time, the generated refresh token, the generated session
    token and the bcrypt hash are parameters of the operations that use
    them; the generated tokens are required to be fresh, as random UUIDs are. */
module UserService {
  import opened Wrappers
  import opened Ascii
  import opened PasswordService
  import opened DatabaseTables
  import opened UserRules

  // ---- Requests, responses and errors -------------------------------------

  datatype RegisterRequest = RegisterRequest(email: string, password: string, username: string, displayName: string)

  datatype LoginRequest = LoginRequest(email: string, password: string)

  datatype UpdateProfileRequest = UpdateProfileRequest(
    displayName: Option<string>,
    avatarUrl: Option<string>,
    preferences: Option<Preferences>)

  /** The claims of a signed access token: the user's id and the session id. */
  datatype AccessToken = AccessToken(subject: UserId, sessionId: string)

  datatype UserProfileResponse = UserProfileResponse(
    id: UserId,
    username: string,
    displayName: string,
    email: string,
    avatarUrl: Option<string>,
    level: int,
    totalScore: int,
    gamesPlayed: int,
    gamesWon: int,
    winRate: real,
    rank: string,
    badges: seq<string>,
    preferences: Preferences,
    createdAt: Instant,
    lastActiveAt: Instant,
    isOnline: bool)

  datatype AuthResponse = AuthResponse(
    accessToken: AccessToken,
    refreshToken: string,
    user: UserProfileResponse,
    expiresIn: int)

  /** The entries of the map getUserStats returns. */
  datatype UserStats = UserStats(
    totalScore: int,
    gamesPlayed: int,
    gamesWon: int,
    currentStreak: int,
    bestStreak: int,
    level: int,
    winRate: real)

  /** The exceptions the service throws. */
  datatype ServiceError =
    | ValidationError(message: string, details: Option<string>)
    | ConflictError(message: string)
    | UnauthorizedError(message: string)
    | NotFoundError(message: string)
      /** A write the database refuses because a value is longer than its
          column; it is no domain exception, so the caller sees a 500. */
    | StorageError

  const PasswordFailedMessage := "Password validation failed"
  const InvalidEmailMessage := "Invalid email format"
  const InvalidUsernameMessage := "Username must be 3-50 characters and contain only letters, numbers, and underscores"
  const EmailTakenMessage := "User with this email already exists"
  const UsernameTakenMessage := "User with this username already exists"
  const BadCredentialsMessage := "Invalid email or password"
  const DeactivatedMessage := "Account is deactivated"
  const InvalidRefreshMessage := "Invalid or expired refresh token"
  const UserNotFoundMessage := "User not found"
  const DisplayNameMessage := "Display name must be between 1 and 100 characters"
  const AvatarUrlMessage := "Invalid avatar URL format"

  const DayMs := 24 * 60 * 60 * 1000
  const RefreshTokenLifetimeMs := 30 * DayMs
  const SessionLifetimeMs := 7 * DayMs
  /** The expiresIn of every AuthResponse: 30 minutes. */
  const ExpiresInMs := 30 * 60 * 1000

  /** `joinToString(separator)`. */
  function Join(parts: seq<string>, separator: string): (s: string)
    ensures parts == [] ==> s == ""
    ensures |parts| == 1 ==> s == parts[0]
  {
    if parts == [] then ""
    else if |parts| == 1 then parts[0]
    else parts[0] + separator + Join(parts[1..], separator)
  }

  /** Sum of the lengths of the parts. */
  function TotalLength(parts: seq<string>): nat {
    if parts == [] then 0 else |parts[0]| + TotalLength(parts[1..])
  }

  /** Joining n > 0 parts keeps every character of the parts and adds
      exactly n - 1 separators. */
  lemma {:induction false} JoinLength(parts: seq<string>, separator: string)
    requires parts != []
    ensures |Join(parts, separator)| == TotalLength(parts) + (|parts| - 1) * |separator|
  {
    if |parts| > 1 {
      JoinLength(parts[1..], separator);
    }
  }

  /** The joined text starts with the first part and ends with the last. */
  lemma {:induction false} JoinEnds(parts: seq<string>, separator: string)
    requires parts != []
    ensures parts[0] <= Join(parts, separator)
    ensures |parts[|parts| - 1]| <= |Join(parts, separator)|
    ensures Join(parts, separator)[|Join(parts, separator)| - |parts[|parts| - 1]|..] == parts[|parts| - 1]
  {
    if |parts| > 1 {
      var rest := Join(parts[1..], separator);
      JoinEnds(parts[1..], separator);
      assert parts[1..][|parts[1..]| - 1] == parts[|parts| - 1];
      var j := parts[0] + separator + rest;
      assert j[|j| - |parts[|parts| - 1]|..] == rest[|rest| - |parts[|parts| - 1]|..];
    }
  }

  // ---- Column widths of request values --------------------------------------

  /** The values register writes unchecked fit their columns: the display
      name, the lowercased email and the client's address.  The username is
      at most 50 characters once validated; the hash and tokens are generated. */
  predicate RegistrationFits(request: RegisterRequest, ipAddress: Option<string>) {
    && |request.displayName| <= DisplayNameWidth
    && |Lowercase(request.email)| <= EmailWidth
    && FitsIn(ipAddress, IpAddressWidth)
  }

  /** The avatar URL of an update, when given, fits its column. */
  predicate AvatarFits(request: UpdateProfileRequest) {
    FitsIn(request.avatarUrl, AvatarUrlWidth)
  }

  /** The user row register inserts fits its columns when the request
      passed validation and its unchecked values fit. */
  lemma RegisteredRowFits(request: RegisterRequest, passwordHash: string, ipAddress: Option<string>, now: Instant)
    requires IsValidUsername(request.username) && RegistrationFits(request, ipAddress)
    requires |passwordHash| == BcryptHashLength
    ensures UserRowFits(InsertUser(Lowercase(request.username), request.displayName, Lowercase(request.email),
                                   passwordHash, Json(DefaultPreferences), now))
  {
  }

  // ---- Queries the operations share ---------------------------------------

  /** The WHERE clause of register's duplicate check. */
  predicate Conflicts(row: UserRow, email: string, username: string) {
    row.email == email || row.username == username
  }

  function FindConflict(users: seq<UserRow>, email: string, username: string): (r: Option<nat>)
    ensures r.Some? ==> r.value < |users| && Conflicts(users[r.value], email, username)
    ensures r.None? <==> forall j :: 0 <= j < |users| ==> !Conflicts(users[j], email, username)
  {
    FirstOrNull(users, (row: UserRow) => Conflicts(row, email, username))
  }

  /** The field register names in its conflict message: "email" when the
      first conflicting row has the email, else "username". */
  function ConflictMessage(existing: UserRow, email: string): string {
    if existing.email == email then EmailTakenMessage else UsernameTakenMessage
  }

  function FindByEmail(users: seq<UserRow>, email: string): (r: Option<nat>)
    ensures r.Some? ==> r.value < |users| && users[r.value].email == email
    ensures r.None? <==> forall j :: 0 <= j < |users| ==> users[j].email != email
  {
    FirstOrNull(users, (row: UserRow) => row.email == email)
  }

  /** The WHERE clause of refresh's join: the presented token, not revoked,
      not expired, and owned by an existing active user. */
  predicate Usable(users: seq<UserRow>, row: RefreshTokenRow, presented: string, now: Instant) {
    && row.token == presented && !row.isRevoked && row.expiresAt > now
    && row.userId < |users| && users[row.userId].isActive
  }

  function FindUsableToken(users: seq<UserRow>, tokens: seq<RefreshTokenRow>, presented: string, now: Instant): (r: Option<nat>)
    ensures r.Some? ==> r.value < |tokens| && Usable(users, tokens[r.value], presented, now)
    ensures r.None? <==> forall j :: 0 <= j < |tokens| ==> !Usable(users, tokens[j], presented, now)
  {
    FirstOrNull(tokens, (row: RefreshTokenRow) => Usable(users, row, presented, now))
  }

  // ---- Profile and stats --------------------------------------------------

  /** The response getUserProfileById builds from a user's row: the row's
      columns, the JSON columns decoded (with the defaults when they do not
      decode), the win rate, the rank, and the online flag. */
  function ProfileOf(id: UserId, u: UserRow, online: bool): (p: UserProfileResponse)
    ensures p.id == id && p.username == u.username && p.displayName == u.displayName
    ensures p.email == u.email && p.avatarUrl == u.avatarUrl && p.level == u.level
    ensures p.totalScore == u.totalScore && p.gamesPlayed == u.gamesPlayed && p.gamesWon == u.gamesWon
    ensures p.createdAt == u.createdAt && p.lastActiveAt == u.lastActiveAt && p.isOnline == online
    ensures u.preferences.Json? ==> p.preferences == u.preferences.value
    ensures u.preferences.Unparsable? ==> p.preferences == DefaultPreferences
    ensures u.badges.Json? ==> p.badges == u.badges.value
    ensures u.badges.Unparsable? ==> p.badges == []
    ensures u.gamesPlayed == 0 ==> p.winRate == 0.0
    ensures 0 <= u.gamesWon <= u.gamesPlayed ==> 0.0 <= p.winRate <= 100.0
    ensures p.rank == RankByCounts(u.level, u.gamesWon, u.gamesPlayed)
  {
    var winRate := WinRate(u.gamesWon, u.gamesPlayed);
    WinRateRange(u.gamesWon, u.gamesPlayed);
    RankMatchesTierTable(u.level, u.gamesWon, u.gamesPlayed);
    UserProfileResponse(id, u.username, u.displayName, u.email, u.avatarUrl, u.level,
      u.totalScore, u.gamesPlayed, u.gamesWon, winRate, CalculateUserRank(u.level, winRate),
      DecodeOr(u.badges, []), DecodeOr(u.preferences, DefaultPreferences),
      u.createdAt, u.lastActiveAt, online)
  }

  /** The statistics of getUserStats for a user's row. */
  function StatsOf(u: UserRow): (s: UserStats)
    ensures s.totalScore == u.totalScore && s.gamesPlayed == u.gamesPlayed && s.gamesWon == u.gamesWon
    ensures s.currentStreak == u.currentStreak && s.bestStreak == u.bestStreak && s.level == u.level
    ensures u.gamesPlayed > 0 ==> s.winRate * (u.gamesPlayed as real) == (u.gamesWon * 100) as real
    ensures u.gamesPlayed <= 0 ==> s.winRate == 0.0
  {
    var s := UserStats(u.totalScore, u.gamesPlayed, u.gamesWon, u.currentStreak, u.bestStreak,
                       u.level, WinRate(u.gamesWon, u.gamesPlayed));
    assert u.gamesPlayed > 0 ==> s.winRate * (u.gamesPlayed as real) == (u.gamesWon * 100) as real by {
      if u.gamesPlayed > 0 {
        var q := u.gamesWon as real / u.gamesPlayed as real;
        assert q * u.gamesPlayed as real == u.gamesWon as real;
      }
    }
    s
  }

  /** The stats and the profile of a user report the same counters and win rate. */
  lemma StatsAgreeWithProfile(id: UserId, u: UserRow, online: bool)
    ensures StatsOf(u).winRate == ProfileOf(id, u, online).winRate
    ensures StatsOf(u).level == ProfileOf(id, u, online).level
    ensures StatsOf(u).gamesPlayed == ProfileOf(id, u, online).gamesPlayed
    ensures StatsOf(u).gamesWon == ProfileOf(id, u, online).gamesWon
  {
  }

  // ---- Profile update -----------------------------------------------------

  /** The validation inside updateUserProfile's update block: a new display
      name has 1..100 characters and a new avatar URL parses. */
  predicate PatchAccepted(request: UpdateProfileRequest, isValidUrl: string -> bool) {
    && (request.displayName.Some? ==> DisplayNameLengthOk(request.displayName.value))
    && (request.avatarUrl.Some? ==> isValidUrl(request.avatarUrl.value))
  }

  /** The row after updateUserProfile's update: each given field replaced,
      lastActiveAt set to now, and nothing else changed. */
  function Patched(u: UserRow, request: UpdateProfileRequest, now: Instant): (v: UserRow)
    ensures v.displayName == request.displayName.GetOr(u.displayName)
    ensures request.avatarUrl.Some? ==> v.avatarUrl == Some(request.avatarUrl.value)
    ensures request.avatarUrl.None? ==> v.avatarUrl == u.avatarUrl
    ensures request.preferences.Some? ==> v.preferences == Json(request.preferences.value)
    ensures request.preferences.None? ==> v.preferences == u.preferences
    ensures v.lastActiveAt == now
    ensures v.(displayName := u.displayName, avatarUrl := u.avatarUrl,
               preferences := u.preferences, lastActiveAt := u.lastActiveAt) == u
  {
    u.(displayName := request.displayName.GetOr(u.displayName),
       avatarUrl := if request.avatarUrl.Some? then Some(request.avatarUrl.value) else u.avatarUrl,
       preferences := if request.preferences.Some? then Json(request.preferences.value) else u.preferences,
       lastActiveAt := now)
  }

  // ---- Refresh tokens over time -------------------------------------------

  /** A refresh token that refresh would still accept, ignoring its owner. */
  predicate Live(row: RefreshTokenRow, now: Instant) {
    !row.isRevoked && row.expiresAt > now
  }

  ghost function LiveTokensOf(tokens: seq<RefreshTokenRow>, userId: UserId, now: Instant): set<nat> {
    set i: nat | i < |tokens| && tokens[i].userId == userId && Live(tokens[i], now)
  }

  /** Login revokes every token of the user before it stores the new one, so
      the new token is the user's only live token. */
  lemma LoginLeavesOneLiveToken(tokens: seq<RefreshTokenRow>, userId: UserId, row: RefreshTokenRow, now: Instant)
    requires row.userId == userId && Live(row, now)
    ensures LiveTokensOf(RevokedWhere(tokens, OfUser(userId)) + [row], userId, now) == {|tokens|}
  {
    var after := RevokedWhere(tokens, OfUser(userId)) + [row];
    forall i: nat | i < |tokens| ensures !(after[i].userId == userId && Live(after[i], now)) {
      assert after[i] == RevokedWhere(tokens, OfUser(userId))[i];
      assert after[i].(isRevoked := tokens[i].isRevoked) == tokens[i];
    }
    assert after[|tokens|] == row;
  }

  /** A token string that was issued and whose every row is revoked. */
  ghost predicate Consumed(tokens: seq<RefreshTokenRow>, t: string) {
    && (exists i :: 0 <= i < |tokens| && tokens[i].token == t)
    && (forall i :: 0 <= i < |tokens| && tokens[i].token == t ==> tokens[i].isRevoked)
  }

  /** Every token consumed before is still consumed after. */
  ghost predicate KeepsConsumed(before: seq<RefreshTokenRow>, after: seq<RefreshTokenRow>) {
    forall t :: Consumed(before, t) ==> Consumed(after, t)
  }

  /** A consumed token is never accepted by refresh, at any time and for any user table. */
  lemma ConsumedNeverUsable(users: seq<UserRow>, tokens: seq<RefreshTokenRow>, t: string, now: Instant)
    requires Consumed(tokens, t)
    ensures FindUsableToken(users, tokens, t, now) == None
  {
  }

  /** After logout revokes a token, refresh rejects it. */
  lemma RevokedTokenUnusable(users: seq<UserRow>, tokens: seq<RefreshTokenRow>, t: string, now: Instant)
    ensures FindUsableToken(users, RevokedWhere(tokens, WithToken(t)), t, now) == None
  {
    var after := RevokedWhere(tokens, WithToken(t));
    forall j | 0 <= j < |after| ensures !Usable(users, after[j], t, now) {
      assert after[j].(isRevoked := tokens[j].isRevoked) == tokens[j];
    }
  }

  lemma RevokeKeepsConsumed(tokens: seq<RefreshTokenRow>, f: TokenFilter)
    ensures KeepsConsumed(tokens, RevokedWhere(tokens, f))
  {
    var after := RevokedWhere(tokens, f);
    forall t | Consumed(tokens, t) ensures Consumed(after, t) {
      var i :| 0 <= i < |tokens| && tokens[i].token == t;
      assert after[i].(isRevoked := tokens[i].isRevoked) == tokens[i];
      forall j | 0 <= j < |after| && after[j].token == t ensures after[j].isRevoked {
        assert after[j].(isRevoked := tokens[j].isRevoked) == tokens[j];
      }
    }
  }

  lemma InsertKeepsConsumed(tokens: seq<RefreshTokenRow>, row: RefreshTokenRow)
    requires FreshToken(tokens, row.token)
    ensures KeepsConsumed(tokens, tokens + [row])
  {
    forall t | Consumed(tokens, t) ensures Consumed(tokens + [row], t) {
      var i :| 0 <= i < |tokens| && tokens[i].token == t;
      assert (tokens + [row])[i] == tokens[i];
    }
  }

  /** Refresh revokes the presented token, so afterwards it is consumed. */
  lemma RefreshConsumes(tokens: seq<RefreshTokenRow>, k: nat, row: RefreshTokenRow)
    requires k < |tokens| && row.token != tokens[k].token
    ensures Consumed(RevokedWhere(tokens, WithToken(tokens[k].token)) + [row], tokens[k].token)
  {
    var t := tokens[k].token;
    var after := RevokedWhere(tokens, WithToken(t)) + [row];
    assert after[k] == RevokedWhere(tokens, WithToken(t))[k];
    assert after[k].(isRevoked := tokens[k].isRevoked) == tokens[k];
  }

  // ---- Constraints under the service's writes -----------------------------

  lemma InsertUserKeepsValid(users: seq<UserRow>, tokens: seq<RefreshTokenRow>, sessions: seq<SessionRow>, row: UserRow)
    requires Valid(users, tokens, sessions)
    requires forall j :: 0 <= j < |users| ==> !Conflicts(users[j], row.email, row.username)
    requires Lowercase(row.username) == row.username && Lowercase(row.email) == row.email
    requires UserRowFits(row)
    ensures Valid(users + [row], tokens, sessions)
  {
    var after := users + [row];
    assert forall i :: 0 <= i < |users| ==> after[i] == users[i];
  }

  lemma UpdateUserKeepsValid(users: seq<UserRow>, tokens: seq<RefreshTokenRow>, sessions: seq<SessionRow>, id: nat, row: UserRow)
    requires Valid(users, tokens, sessions) && id < |users|
    requires row.username == users[id].username && row.email == users[id].email
    requires UserRowFits(row)
    ensures Valid(users[id := row], tokens, sessions)
  {
  }

  lemma InsertTokenKeepsValid(users: seq<UserRow>, tokens: seq<RefreshTokenRow>, sessions: seq<SessionRow>, row: RefreshTokenRow)
    requires Valid(users, tokens, sessions)
    requires FreshToken(tokens, row.token) && row.userId < |users|
    requires RefreshTokenRowFits(row)
    ensures Valid(users, tokens + [row], sessions)
  {
    var after := tokens + [row];
    assert forall i :: 0 <= i < |tokens| ==> after[i] == tokens[i];
  }

  lemma InsertSessionKeepsValid(users: seq<UserRow>, tokens: seq<RefreshTokenRow>, sessions: seq<SessionRow>, row: SessionRow)
    requires Valid(users, tokens, sessions)
    requires FreshSessionToken(sessions, row.sessionToken) && row.userId < |users|
    requires SessionRowFits(row)
    ensures Valid(users, tokens, sessions + [row])
  {
    var after := sessions + [row];
    assert forall i :: 0 <= i < |sessions| ==> after[i] == sessions[i];
  }

  lemma RevokeKeepsFresh(tokens: seq<RefreshTokenRow>, f: TokenFilter, t: string)
    requires FreshToken(tokens, t)
    ensures FreshToken(RevokedWhere(tokens, f), t)
  {
    var after := RevokedWhere(tokens, f);
    forall i | 0 <= i < |tokens| ensures after[i].token != t {
      assert after[i].(isRevoked := tokens[i].isRevoked) == tokens[i];
    }
  }

  /** A session created at `now` makes its user online at `now`. */
  lemma NewSessionIsOnline(sessions: seq<SessionRow>, row: SessionRow, now: Instant)
    requires row.isActive && row.createdAt == now
    ensures IsUserOnline(sessions + [row], row.userId, now)
  {
    assert RecentSessionOf((sessions + [row])[|sessions|], row.userId, now);
  }

  // ---- The service ----------------------------------------------------------

  class UserService {
    var users: seq<UserRow>
    var refreshTokens: seq<RefreshTokenRow>
    var sessions: seq<SessionRow>

    ghost predicate Valid()
      reads this
    {
      DatabaseTables.Valid(users, refreshTokens, sessions)
    }

    /** An empty database. */
    constructor()
      ensures Valid() && users == [] && refreshTokens == [] && sessions == []
    {
      users := [];
      refreshTokens := [];
      sessions := [];
    }

    /** getUserProfileById: NotFound for an unknown id, else the user's profile,
        online when one of their active sessions is younger than five minutes. */
    function GetUserProfileById(userId: UserId, now: Instant): (r: Result<UserProfileResponse, ServiceError>)
      reads this
      ensures r.Failure? <==> userId >= |users|
      ensures r.Failure? ==> r.error == NotFoundError(UserNotFoundMessage)
      ensures r.Success? ==> r.value == ProfileOf(userId, users[userId], r.value.isOnline)
      ensures r.Success? ==> (r.value.isOnline <==>
                exists i :: 0 <= i < |sessions| && RecentSessionOf(sessions[i], userId, now))
    {
      if userId < |users| then Success(ProfileOf(userId, users[userId], IsUserOnline(sessions, userId, now)))
      else Failure(NotFoundError(UserNotFoundMessage))
    }

    /** getUserStats: NotFound for an unknown id, else the user's counters and win rate. */
    function GetUserStats(userId: UserId): (r: Result<UserStats, ServiceError>)
      reads this
      ensures r.Failure? <==> userId >= |users|
      ensures r.Failure? ==> r.error == NotFoundError(UserNotFoundMessage)
      ensures r.Success? ==> r.value == StatsOf(users[userId])
    {
      if userId < |users| then Success(StatsOf(users[userId]))
      else Failure(NotFoundError(UserNotFoundMessage))
    }

    /** createUserSession: a new active session, valid for seven days. */
    method CreateUserSession(userId: UserId, ipAddress: Option<string>, userAgent: Option<string>,
                             sessionToken: string, now: Instant) returns (sessionId: string)
      requires Valid() && userId < |users|
      requires FreshSessionToken(sessions, sessionToken)
      requires FitsIn(ipAddress, IpAddressWidth)
      modifies this
      ensures Valid()
      ensures sessionId == sessionToken
      ensures sessions == old(sessions) + [InsertSession(userId, sessionToken, ipAddress, userAgent, now + SessionLifetimeMs, now)]
      ensures users == old(users) && refreshTokens == old(refreshTokens)
      ensures IsUserOnline(sessions, userId, now)
    {
      var row := InsertSession(userId, sessionToken, ipAddress, userAgent, now + SessionLifetimeMs, now);
      InsertSessionKeepsValid(users, refreshTokens, sessions, row);
      NewSessionIsOnline(sessions, row, now);
      sessions := sessions + [row];
      sessionId := sessionToken;
    }

    /** registerUser: validate the password, the email and the username (in
        that order), reject a duplicate email or username, then store the
        user in lowercase, open a session and issue a refresh token.  A
        display name, email or address too long for its column makes one of
        the inserts throw, and the transaction leaves the tables unchanged. */
    method RegisterUser(request: RegisterRequest, ipAddress: Option<string>, userAgent: Option<string>,
                        passwordHash: string, sessionToken: string, refreshToken: string, now: Instant)
      returns (r: Result<AuthResponse, ServiceError>)
      requires Valid()
      requires FreshSessionToken(sessions, sessionToken) && FreshToken(refreshTokens, refreshToken)
      requires |passwordHash| == BcryptHashLength
      modifies this
      ensures Valid()
      ensures KeepsConsumed(old(refreshTokens), refreshTokens)
      ensures PasswordErrors(request.password) != [] ==>
                r == Failure(ValidationError(PasswordFailedMessage, Some(Join(PasswordErrors(request.password), "; "))))
      ensures PasswordErrors(request.password) == [] && !IsValidEmail(request.email) ==>
                r == Failure(ValidationError(InvalidEmailMessage, None))
      ensures PasswordErrors(request.password) == [] && IsValidEmail(request.email) && !IsValidUsername(request.username) ==>
                r == Failure(ValidationError(InvalidUsernameMessage, None))
      ensures var email, username := Lowercase(request.email), Lowercase(request.username);
              var existing := FindConflict(old(users), email, username);
              var accepted := StrongPassword(request.password) && IsValidEmail(request.email)
                              && IsValidUsername(request.username);
              && (r.Success? <==> accepted && existing.None? && RegistrationFits(request, ipAddress))
              && (accepted && existing.Some? ==>
                    r == Failure(ConflictError(ConflictMessage(old(users)[existing.value], email))))
              && (accepted && existing.None? && !RegistrationFits(request, ipAddress) ==>
                    r == Failure(StorageError))
      ensures r.Failure? ==> users == old(users) && refreshTokens == old(refreshTokens) && sessions == old(sessions)
      ensures r.Success? ==>
                var id := |old(users)|;
                && users == old(users) + [InsertUser(Lowercase(request.username), request.displayName,
                                            Lowercase(request.email), passwordHash, Json(DefaultPreferences), now)]
                && sessions == old(sessions) + [InsertSession(id, sessionToken, ipAddress, userAgent, now + SessionLifetimeMs, now)]
                && refreshTokens == old(refreshTokens) + [InsertRefreshToken(id, refreshToken, now + RefreshTokenLifetimeMs, now)]
                && GetUserProfileById(id, now) == Success(r.value.user)
                && r.value == AuthResponse(AccessToken(id, sessionToken), refreshToken, r.value.user, ExpiresInMs)
      ensures r.Success? ==> r.value.user.isOnline && r.value.user.rank == "Beginner" && r.value.user.winRate == 0.0
                              && r.value.user.preferences == DefaultPreferences && r.value.user.badges == []
    {
      NoErrorsIffStrong(request.password);
      var errors := ValidatePasswordStrength(request.password);
      if errors != [] {
        return Failure(ValidationError(PasswordFailedMessage, Some(Join(errors, "; "))));
      }
      if !IsValidEmail(request.email) {
        return Failure(ValidationError(InvalidEmailMessage, None));
      }
      if !IsValidUsername(request.username) {
        return Failure(ValidationError(InvalidUsernameMessage, None));
      }
      var email := Lowercase(request.email);
      var username := Lowercase(request.username);
      var existing := FindConflict(users, email, username);
      if existing.Some? {
        return Failure(ConflictError(ConflictMessage(users[existing.value], email)));
      }

      if !RegistrationFits(request, ipAddress) {
        return Failure(StorageError);
      }

      LowercaseIdempotent(request.username);
      LowercaseIdempotent(request.email);
      RegisteredRowFits(request, passwordHash, ipAddress, now);
      var response := StoreNewUser(username, request.displayName, email, ipAddress, userAgent,
                                   passwordHash, sessionToken, refreshToken, now);
      r := Success(response);
    }

    /** The writes of a registration that passed its checks: the user row,
        a session and a refresh token for it, and the response. */
    method StoreNewUser(username: string, displayName: string, email: string,
                        ipAddress: Option<string>, userAgent: Option<string>,
                        passwordHash: string, sessionToken: string, refreshToken: string, now: Instant)
      returns (response: AuthResponse)
      requires Valid()
      requires FreshSessionToken(sessions, sessionToken) && FreshToken(refreshTokens, refreshToken)
      requires forall j :: 0 <= j < |users| ==> !Conflicts(users[j], email, username)
      requires Lowercase(username) == username && Lowercase(email) == email
      requires UserRowFits(InsertUser(username, displayName, email, passwordHash, Json(DefaultPreferences), now))
      requires FitsIn(ipAddress, IpAddressWidth)
      modifies this
      ensures Valid()
      ensures KeepsConsumed(old(refreshTokens), refreshTokens)
      ensures var id := |old(users)|;
              && users == old(users) + [InsertUser(username, displayName, email, passwordHash, Json(DefaultPreferences), now)]
              && sessions == old(sessions) + [InsertSession(id, sessionToken, ipAddress, userAgent, now + SessionLifetimeMs, now)]
              && refreshTokens == old(refreshTokens) + [InsertRefreshToken(id, refreshToken, now + RefreshTokenLifetimeMs, now)]
              && GetUserProfileById(id, now) == Success(response.user)
              && response == AuthResponse(AccessToken(id, sessionToken), refreshToken, response.user, ExpiresInMs)
      ensures response.user.isOnline && response.user.rank == "Beginner" && response.user.winRate == 0.0
              && response.user.preferences == DefaultPreferences && response.user.badges == []
    {
      var userId := |users|;
      var row := InsertUser(username, displayName, email, passwordHash, Json(DefaultPreferences), now);
      InsertUserKeepsValid(users, refreshTokens, sessions, row);
      users := users + [row];

      var sessionId := CreateUserSession(userId, ipAddress, userAgent, sessionToken, now);
      var accessToken := AccessToken(userId, sessionId);

      var token := InsertRefreshToken(userId, refreshToken, now + RefreshTokenLifetimeMs, now);
      InsertTokenKeepsValid(users, refreshTokens, sessions, token);
      InsertKeepsConsumed(refreshTokens, token);
      refreshTokens := refreshTokens + [token];

      var profile := GetUserProfileById(userId, now);
      response := AuthResponse(accessToken, refreshToken, profile.value, ExpiresInMs);
    }

    /** loginUser: find the user by lowercase email, check the password and
        that the account is active, then open a session, revoke every
        refresh token of the user, issue a new one and record the activity.
        An address too long for its column makes the session insert throw. */
    method LoginUser(request: LoginRequest, ipAddress: Option<string>, userAgent: Option<string>,
                     verifyPassword: (string, string) -> bool,
                     sessionToken: string, refreshToken: string, now: Instant)
      returns (r: Result<AuthResponse, ServiceError>)
      requires Valid()
      requires FreshSessionToken(sessions, sessionToken) && FreshToken(refreshTokens, refreshToken)
      modifies this
      ensures Valid()
      ensures KeepsConsumed(old(refreshTokens), refreshTokens)
      ensures var found := FindByEmail(old(users), Lowercase(request.email));
              var verified := found.Some? && verifyPassword(request.password, old(users)[found.value].passwordHash);
              && (!verified ==> r == Failure(UnauthorizedError(BadCredentialsMessage)))
              && (verified && !old(users)[found.value].isActive ==> r == Failure(UnauthorizedError(DeactivatedMessage)))
              && (verified && old(users)[found.value].isActive && !FitsIn(ipAddress, IpAddressWidth) ==>
                    r == Failure(StorageError))
              && (r.Success? <==> verified && old(users)[found.value].isActive && FitsIn(ipAddress, IpAddressWidth))
              && (r.Success? ==>
                    var id := found.value;
                    && users == old(users)[id := old(users)[id].(lastActiveAt := now)]
                    && sessions == old(sessions) + [InsertSession(id, sessionToken, ipAddress, userAgent, now + SessionLifetimeMs, now)]
                    && refreshTokens == RevokedWhere(old(refreshTokens), OfUser(id))
                                          + [InsertRefreshToken(id, refreshToken, now + RefreshTokenLifetimeMs, now)]
                    && LiveTokensOf(refreshTokens, id, now) == {|refreshTokens| - 1}
                    && GetUserProfileById(id, now) == Success(r.value.user)
                    && r.value.user.isOnline
                    && r.value == AuthResponse(AccessToken(id, sessionToken), refreshToken, r.value.user, ExpiresInMs))
      ensures r.Failure? ==> users == old(users) && refreshTokens == old(refreshTokens) && sessions == old(sessions)
    {
      var found := FindByEmail(users, Lowercase(request.email));
      if found.None? {
        return Failure(UnauthorizedError(BadCredentialsMessage));
      }
      var userId := found.value;
      if !verifyPassword(request.password, users[userId].passwordHash) {
        return Failure(UnauthorizedError(BadCredentialsMessage));
      }
      if !users[userId].isActive {
        return Failure(UnauthorizedError(DeactivatedMessage));
      }
      if !FitsIn(ipAddress, IpAddressWidth) {
        return Failure(StorageError);
      }

      var response := StoreLogin(userId, ipAddress, userAgent, sessionToken, refreshToken, now);
      r := Success(response);
    }

    /** The writes of a login that passed its checks: a session, the user's
        old refresh tokens revoked and a new one issued, the activity time. */
    method StoreLogin(userId: UserId, ipAddress: Option<string>, userAgent: Option<string>,
                      sessionToken: string, refreshToken: string, now: Instant)
      returns (response: AuthResponse)
      requires Valid() && userId < |users|
      requires FreshSessionToken(sessions, sessionToken) && FreshToken(refreshTokens, refreshToken)
      requires FitsIn(ipAddress, IpAddressWidth)
      modifies this
      ensures Valid()
      ensures KeepsConsumed(old(refreshTokens), refreshTokens)
      ensures && users == old(users)[userId := old(users)[userId].(lastActiveAt := now)]
              && sessions == old(sessions) + [InsertSession(userId, sessionToken, ipAddress, userAgent, now + SessionLifetimeMs, now)]
              && refreshTokens == RevokedWhere(old(refreshTokens), OfUser(userId))
                                    + [InsertRefreshToken(userId, refreshToken, now + RefreshTokenLifetimeMs, now)]
              && LiveTokensOf(refreshTokens, userId, now) == {|refreshTokens| - 1}
              && GetUserProfileById(userId, now) == Success(response.user)
              && response.user.isOnline
              && response == AuthResponse(AccessToken(userId, sessionToken), refreshToken, response.user, ExpiresInMs)
    {
      var sessionId := CreateUserSession(userId, ipAddress, userAgent, sessionToken, now);
      var accessToken := AccessToken(userId, sessionId);

      RevokeKeepsValid(users, refreshTokens, sessions, OfUser(userId));
      RevokeKeepsFresh(refreshTokens, OfUser(userId), refreshToken);
      RevokeKeepsConsumed(refreshTokens, OfUser(userId));
      var before := refreshTokens;
      refreshTokens := RevokeWhere(refreshTokens, OfUser(userId));
      var token := InsertRefreshToken(userId, refreshToken, now + RefreshTokenLifetimeMs, now);
      InsertTokenKeepsValid(users, refreshTokens, sessions, token);
      InsertKeepsConsumed(refreshTokens, token);
      LoginLeavesOneLiveToken(before, userId, token, now);
      refreshTokens := refreshTokens + [token];

      UpdateUserKeepsValid(users, refreshTokens, sessions, userId, users[userId].(lastActiveAt := now));
      users := users[userId := users[userId].(lastActiveAt := now)];

      var profile := GetUserProfileById(userId, now);
      response := AuthResponse(accessToken, refreshToken, profile.value, ExpiresInMs);
    }

    /** refreshToken: accept the presented token only when it is stored, not
        revoked, not expired and its user is active; then revoke it and issue
        a new one.  `sessionId` is the access token's new random session id,
        which no table records. */
    method RefreshToken(presented: string, sessionId: string, newRefreshToken: string, now: Instant)
      returns (r: Result<AuthResponse, ServiceError>)
      requires Valid()
      requires FreshToken(refreshTokens, newRefreshToken)
      modifies this
      ensures Valid()
      ensures KeepsConsumed(old(refreshTokens), refreshTokens)
      ensures users == old(users) && sessions == old(sessions)
      ensures var k := FindUsableToken(old(users), old(refreshTokens), presented, now);
              && (r.Success? <==> k.Some?)
              && (k.None? ==> r == Failure(UnauthorizedError(InvalidRefreshMessage)) && refreshTokens == old(refreshTokens))
              && (k.Some? ==>
                    var id := old(refreshTokens)[k.value].userId;
                    && refreshTokens == RevokedWhere(old(refreshTokens), WithToken(presented))
                                          + [InsertRefreshToken(id, newRefreshToken, now + RefreshTokenLifetimeMs, now)]
                    && GetUserProfileById(id, now) == Success(r.value.user)
                    && r.value == AuthResponse(AccessToken(id, sessionId), newRefreshToken, r.value.user, ExpiresInMs))
      ensures r.Success? ==> Consumed(refreshTokens, presented)
    {
      var record := FindUsableToken(users, refreshTokens, presented, now);
      if record.None? {
        return Failure(UnauthorizedError(InvalidRefreshMessage));
      }
      var userId := refreshTokens[record.value].userId;
      var accessToken := AccessToken(userId, sessionId);

      RevokeKeepsValid(users, refreshTokens, sessions, WithToken(presented));
      RevokeKeepsFresh(refreshTokens, WithToken(presented), newRefreshToken);
      RevokeKeepsConsumed(refreshTokens, WithToken(presented));
      RefreshConsumes(refreshTokens, record.value, InsertRefreshToken(userId, newRefreshToken, now + RefreshTokenLifetimeMs, now));
      refreshTokens := RevokeWhere(refreshTokens, WithToken(presented));
      var token := InsertRefreshToken(userId, newRefreshToken, now + RefreshTokenLifetimeMs, now);
      InsertTokenKeepsValid(users, refreshTokens, sessions, token);
      InsertKeepsConsumed(refreshTokens, token);
      refreshTokens := refreshTokens + [token];

      var profile := GetUserProfileById(userId, now);
      r := Success(AuthResponse(accessToken, newRefreshToken, profile.value, ExpiresInMs));
    }

    /** updateUserProfile: the display name is checked, then the avatar URL;
        setting an avatar URL longer than its column throws; then the user's
        existence is checked.  On success the given fields are replaced and
        the refreshed profile returned. */
    method UpdateUserProfile(userId: UserId, request: UpdateProfileRequest,
                             isValidUrl: string -> bool, now: Instant)
      returns (r: Result<UserProfileResponse, ServiceError>)
      requires Valid()
      modifies this
      ensures Valid()
      ensures refreshTokens == old(refreshTokens) && sessions == old(sessions)
      ensures request.displayName.Some? && !DisplayNameLengthOk(request.displayName.value) ==>
                r == Failure(ValidationError(DisplayNameMessage, None))
      ensures (request.displayName.Some? ==> DisplayNameLengthOk(request.displayName.value))
              && request.avatarUrl.Some? && !isValidUrl(request.avatarUrl.value) ==>
                r == Failure(ValidationError(AvatarUrlMessage, None))
      ensures PatchAccepted(request, isValidUrl) && !AvatarFits(request) ==> r == Failure(StorageError)
      ensures PatchAccepted(request, isValidUrl) && AvatarFits(request) && userId >= |old(users)| ==>
                r == Failure(NotFoundError(UserNotFoundMessage))
      ensures r.Success? <==> PatchAccepted(request, isValidUrl) && AvatarFits(request) && userId < |old(users)|
      ensures r.Failure? ==> users == old(users)
      ensures r.Success? ==> users == old(users)[userId := Patched(old(users)[userId], request, now)]
                             && r == GetUserProfileById(userId, now)
    {
      if request.displayName.Some? && !DisplayNameLengthOk(request.displayName.value) {
        return Failure(ValidationError(DisplayNameMessage, None));
      }
      if request.avatarUrl.Some? && !isValidUrl(request.avatarUrl.value) {
        return Failure(ValidationError(AvatarUrlMessage, None));
      }
      if !AvatarFits(request) {
        return Failure(StorageError);
      }
      if userId >= |users| {
        return Failure(NotFoundError(UserNotFoundMessage));
      }
      var row := Patched(users[userId], request, now);
      UpdateUserKeepsValid(users, refreshTokens, sessions, userId, row);
      users := users[userId := row];
      r := GetUserProfileById(userId, now);
    }

    /** logoutUser: revoke the given refresh token, if any.  Sessions are not
        touched, so the user stays online for the rest of the window. */
    method LogoutUser(refreshToken: Option<string>)
      requires Valid()
      modifies this
      ensures Valid()
      ensures KeepsConsumed(old(refreshTokens), refreshTokens)
      ensures users == old(users) && sessions == old(sessions)
      ensures refreshToken.None? ==> refreshTokens == old(refreshTokens)
      ensures refreshToken.Some? ==> refreshTokens == RevokedWhere(old(refreshTokens), WithToken(refreshToken.value))
    {
      if refreshToken.Some? {
        RevokeKeepsValid(users, refreshTokens, sessions, WithToken(refreshToken.value));
        RevokeKeepsConsumed(refreshTokens, WithToken(refreshToken.value));
        refreshTokens := RevokeWhere(refreshTokens, WithToken(refreshToken.value));
      }
    }
  }

  /** Presenting the same refresh token twice: once the first refresh has
      rotated it, the second is rejected, whenever it happens. */
  method RefreshReplay(service: UserService, presented: string,
                       firstSession: string, firstToken: string, firstNow: Instant,
                       secondSession: string, secondToken: string, secondNow: Instant)
    returns (first: Result<AuthResponse, ServiceError>, second: Result<AuthResponse, ServiceError>)
    requires service.Valid()
    requires FreshToken(service.refreshTokens, firstToken) && FreshToken(service.refreshTokens, secondToken)
    requires firstToken != secondToken
    modifies service
    ensures first.Success? ==> second == Failure(UnauthorizedError(InvalidRefreshMessage))
  {
    ghost var before := service.refreshTokens;
    first := service.RefreshToken(presented, firstSession, firstToken, firstNow);
    if first.Success? {
      RevokeKeepsFresh(before, WithToken(presented), secondToken);
      assert FreshToken(service.refreshTokens, secondToken) by {
        var after := service.refreshTokens;
        assert after[|after| - 1].token == firstToken;
        assert forall i :: 0 <= i < |after| - 1 ==> after[i] == RevokedWhere(before, WithToken(presented))[i];
      }
      ConsumedNeverUsable(service.users, service.refreshTokens, presented, secondNow);
    } else {
      assert service.refreshTokens == before;
    }
    second := service.RefreshToken(presented, secondSession, secondToken, secondNow);
  }
}
