/** The three tables of the authentication store (Users, RefreshTokens,
    UserSessions): their row shapes, column defaults and constraints, and the
    SELECT ... WHERE ... / UPDATE ... WHERE ... primitives the service uses.

    Users.id is an auto-generated UUID in the schema; here it is the row's
    position in the Users table, which is stable because no row is deleted.
    The surrogate ids of RefreshTokens and UserSessions are never read and
    are not modelled. */
module DatabaseTables {
  import opened Wrappers
  import Ascii

  /** A timestamp, in milliseconds. */
  type Instant = int

  /** Users.id: the position of the user's row. */
  type UserId = nat

  /** The typed form of the preferences JSON column. */
  datatype Preferences = Preferences(
    preferredCategories: seq<string>,
    difficultyLevel: string,
    soundEnabled: bool,
    notificationsEnabled: bool,
    profileVisibility: string)

  /** UserPreferences() with every field at its declared default. */
  const DefaultPreferences := Preferences([], "Mixed", true, true, "Public")

  /** A text column that holds JSON: `Json(v)` is text that decodes to `v`,
      `Unparsable` is any text that does not decode. */
  datatype JsonText<T> = Json(value: T) | Unparsable

  /** `try { decode(text) } catch (e) { fallback }`. */
  function DecodeOr<T>(text: JsonText<T>, fallback: T): (v: T)
    ensures text.Unparsable? ==> v == fallback
    ensures text.Json? ==> v == text.value
  {
    match text
    case Json(x) => x
    case Unparsable => fallback
  }

  datatype UserRow = UserRow(
    username: string,
    displayName: string,
    email: string,
    passwordHash: string,
    avatarUrl: Option<string>,
    level: int,
    totalScore: int,
    gamesPlayed: int,
    gamesWon: int,
    currentStreak: int,
    bestStreak: int,
    preferences: JsonText<Preferences>,
    badges: JsonText<seq<string>>,
    isVerified: bool,
    isActive: bool,
    isPremium: bool,
    createdAt: Instant,
    lastActiveAt: Instant,
    emailVerifiedAt: Option<Instant>)

  /** The column defaults of Users: level 1, zero score, game and streak
      counters, active, unverified, not premium, preferences "{}" (which
      decodes to the default preferences), badges "[]", no avatar and no
      verification time. */
  ghost predicate UserDefaults(u: UserRow) {
    && u.avatarUrl == None
    && u.level == 1
    && u.totalScore == 0 && u.gamesPlayed == 0 && u.gamesWon == 0
    && u.currentStreak == 0 && u.bestStreak == 0
    && u.preferences == Json(DefaultPreferences)
    && u.badges == Json([])
    && !u.isVerified && u.isActive && !u.isPremium
    && u.emailVerifiedAt == None
  }

  /** An INSERT into Users that sets the given columns; every other column
      takes its default, and both timestamps take the current time. */
  function InsertUser(username: string, displayName: string, email: string,
                      passwordHash: string, preferences: JsonText<Preferences>,
                      now: Instant): (u: UserRow)
    ensures preferences == Json(DefaultPreferences) ==> UserDefaults(u)
    ensures u.username == username && u.displayName == displayName && u.email == email
    ensures u.passwordHash == passwordHash && u.preferences == preferences
    ensures u.createdAt == now && u.lastActiveAt == now
  {
    UserRow(username, displayName, email, passwordHash, None, 1, 0, 0, 0, 0, 0,
            preferences, Json([]), false, true, false, now, now, None)
  }

  datatype RefreshTokenRow = RefreshTokenRow(
    userId: UserId,
    token: string,
    deviceId: Option<string>,
    deviceName: Option<string>,
    expiresAt: Instant,
    createdAt: Instant,
    lastUsedAt: Instant,
    isRevoked: bool)

  /** An INSERT into RefreshTokens of (userId, token, expiresAt): not revoked,
      no device, both timestamps the current time. */
  function InsertRefreshToken(userId: UserId, token: string, expiresAt: Instant, now: Instant): (t: RefreshTokenRow)
    ensures !t.isRevoked && t.deviceId == None && t.deviceName == None
    ensures t.userId == userId && t.token == token && t.expiresAt == expiresAt
  {
    RefreshTokenRow(userId, token, None, None, expiresAt, now, now, false)
  }

  datatype SessionRow = SessionRow(
    userId: UserId,
    sessionToken: string,
    ipAddress: Option<string>,
    userAgent: Option<string>,
    isActive: bool,
    createdAt: Instant,
    expiresAt: Instant)

  /** An INSERT into UserSessions: active, created now. */
  function InsertSession(userId: UserId, sessionToken: string, ipAddress: Option<string>,
                         userAgent: Option<string>, expiresAt: Instant, now: Instant): (s: SessionRow)
    ensures s.isActive && s.createdAt == now
    ensures s.userId == userId && s.sessionToken == sessionToken && s.expiresAt == expiresAt
  {
    SessionRow(userId, sessionToken, ipAddress, userAgent, true, now, expiresAt)
  }

  // ---- Constraints -------------------------------------------------------

  /** uniqueIndex on Users.username. */
  ghost predicate UniqueUsernames(users: seq<UserRow>) {
    forall i, j :: 0 <= i < j < |users| ==> users[i].username != users[j].username
  }

  /** uniqueIndex on Users.email. */
  ghost predicate UniqueEmails(users: seq<UserRow>) {
    forall i, j :: 0 <= i < j < |users| ==> users[i].email != users[j].email
  }

  /** Usernames and emails are stored in lowercase. */
  ghost predicate Normalized(users: seq<UserRow>) {
    forall i :: 0 <= i < |users| ==>
      Ascii.Lowercase(users[i].username) == users[i].username &&
      Ascii.Lowercase(users[i].email) == users[i].email
  }

  /** uniqueIndex on RefreshTokens.token. */
  ghost predicate UniqueTokens(tokens: seq<RefreshTokenRow>) {
    forall i, j :: 0 <= i < j < |tokens| ==> tokens[i].token != tokens[j].token
  }

  /** uniqueIndex on UserSessions.sessionToken. */
  ghost predicate UniqueSessionTokens(sessions: seq<SessionRow>) {
    forall i, j :: 0 <= i < j < |sessions| ==> sessions[i].sessionToken != sessions[j].sessionToken
  }

  /** The foreign keys RefreshTokens.userId and UserSessions.userId name an existing user. */
  ghost predicate ReferencesExist(users: seq<UserRow>, tokens: seq<RefreshTokenRow>, sessions: seq<SessionRow>) {
    && (forall i :: 0 <= i < |tokens| ==> tokens[i].userId < |users|)
    && (forall i :: 0 <= i < |sessions| ==> sessions[i].userId < |users|)
  }

  // ---- Column widths -----------------------------------------------------

  /** The declared lengths of the `varchar` columns.  An INSERT or UPDATE
      that sets a longer value throws before anything is written; the text
      columns (preferences, badges, user_agent) have no limit. */
  const UsernameWidth := 50
  const DisplayNameWidth := 100
  const EmailWidth := 255
  const PasswordHashWidth := 255
  const AvatarUrlWidth := 500
  const TokenWidth := 255
  const DeviceWidth := 255
  const SessionTokenWidth := 255
  const IpAddressWidth := 45

  /** An optional value fits a nullable column of the given width. */
  predicate FitsIn(value: Option<string>, width: nat) {
    value.Some? ==> |value.value| <= width
  }

  predicate UserRowFits(u: UserRow) {
    && |u.username| <= UsernameWidth && |u.displayName| <= DisplayNameWidth
    && |u.email| <= EmailWidth && |u.passwordHash| <= PasswordHashWidth
    && FitsIn(u.avatarUrl, AvatarUrlWidth)
  }

  predicate RefreshTokenRowFits(t: RefreshTokenRow) {
    |t.token| <= TokenWidth && FitsIn(t.deviceId, DeviceWidth) && FitsIn(t.deviceName, DeviceWidth)
  }

  predicate SessionRowFits(s: SessionRow) {
    |s.sessionToken| <= SessionTokenWidth && FitsIn(s.ipAddress, IpAddressWidth)
  }

  /** Every stored value fits its column. */
  ghost predicate AllFit(users: seq<UserRow>, tokens: seq<RefreshTokenRow>, sessions: seq<SessionRow>) {
    && (forall i :: 0 <= i < |users| ==> UserRowFits(users[i]))
    && (forall i :: 0 <= i < |tokens| ==> RefreshTokenRowFits(tokens[i]))
    && (forall i :: 0 <= i < |sessions| ==> SessionRowFits(sessions[i]))
  }

  ghost predicate Valid(users: seq<UserRow>, tokens: seq<RefreshTokenRow>, sessions: seq<SessionRow>) {
    && UniqueUsernames(users) && UniqueEmails(users) && Normalized(users)
    && UniqueTokens(tokens) && UniqueSessionTokens(sessions)
    && ReferencesExist(users, tokens, sessions)
    && AllFit(users, tokens, sessions)
  }

  // ---- Generated values --------------------------------------------------

  /** `UUID.toString()` has 36 characters. */
  const UuidLength := 36
  /** A generated refresh token is two UUIDs joined by '-'. */
  const RefreshTokenLength := 2 * UuidLength + 1
  /** A bcrypt hash in modular-crypt form has 60 characters. */
  const BcryptHashLength := 60

  /** A freshly generated refresh token: as long as a UUID pair, and not yet
      present in RefreshTokens. */
  predicate FreshToken(tokens: seq<RefreshTokenRow>, t: string) {
    |t| == RefreshTokenLength && forall i :: 0 <= i < |tokens| ==> tokens[i].token != t
  }

  /** A freshly generated session token: as long as a UUID, and not yet
      present in UserSessions. */
  predicate FreshSessionToken(sessions: seq<SessionRow>, t: string) {
    |t| == UuidLength && forall i :: 0 <= i < |sessions| ==> sessions[i].sessionToken != t
  }

  // ---- Queries -----------------------------------------------------------

  /** `selectAll().where { where }.firstOrNull()`, taking rows in table order. */
  function FirstOrNull<T>(rows: seq<T>, where: T -> bool): (r: Option<nat>)
    ensures r.Some? ==> r.value < |rows| && where(rows[r.value])
    ensures r.Some? ==> forall j :: 0 <= j < r.value ==> !where(rows[j])
    ensures r.None? <==> forall j :: 0 <= j < |rows| ==> !where(rows[j])
  {
    if rows == [] then None
    else if where(rows[0]) then Some(0)
    else
      match FirstOrNull(rows[1..], where)
      case None => None
      case Some(k) => Some(k + 1)
  }

  /** `selectAll().where { where }.count()`. */
  function Count<T>(rows: seq<T>, where: T -> bool): (n: nat)
    ensures n <= |rows|
    ensures n > 0 <==> exists j :: 0 <= j < |rows| && where(rows[j])
  {
    if rows == [] then 0
    else
      assert forall j :: 1 <= j < |rows| ==> rows[j] == rows[1..][j - 1];
      (if where(rows[0]) then 1 else 0) + Count(rows[1..], where)
  }

  // ---- Revocation --------------------------------------------------------

  /** The WHERE clauses of the UPDATEs that revoke refresh tokens. */
  datatype TokenFilter = OfUser(userId: UserId) | WithToken(token: string)

  predicate Selects(f: TokenFilter, row: RefreshTokenRow) {
    match f
    case OfUser(u) => row.userId == u
    case WithToken(t) => row.token == t
  }

  /** `RefreshTokens.update({ f }) { it[isRevoked] = true }`: the table
      after the update. Only the revoked flag changes, it becomes set on
      exactly the selected rows, and a set flag stays set. */
  function RevokedWhere(rows: seq<RefreshTokenRow>, f: TokenFilter): (r: seq<RefreshTokenRow>)
    ensures |r| == |rows|
    ensures forall i :: 0 <= i < |rows| ==> r[i].isRevoked == (rows[i].isRevoked || Selects(f, rows[i]))
    ensures forall i :: 0 <= i < |rows| ==> r[i].(isRevoked := rows[i].isRevoked) == rows[i]
  {
    seq(|rows|, i requires 0 <= i < |rows| =>
      if Selects(f, rows[i]) then rows[i].(isRevoked := true) else rows[i])
  }

  /** The UPDATE, row by row. */
  method RevokeWhere(rows: seq<RefreshTokenRow>, f: TokenFilter) returns (updated: seq<RefreshTokenRow>)
    ensures updated == RevokedWhere(rows, f)
  {
    updated := rows;
    var i := 0;
    while i < |rows|
      invariant 0 <= i <= |rows| && |updated| == |rows|
      invariant forall j :: 0 <= j < i ==> updated[j] == RevokedWhere(rows, f)[j]
      invariant forall j :: i <= j < |rows| ==> updated[j] == rows[j]
    {
      if Selects(f, rows[i]) {
        updated := updated[i := rows[i].(isRevoked := true)];
      }
      i := i + 1;
    }
  }

  /** Revoking twice is revoking once (logout is idempotent). */
  lemma RevokeIdempotent(rows: seq<RefreshTokenRow>, f: TokenFilter)
    ensures RevokedWhere(RevokedWhere(rows, f), f) == RevokedWhere(rows, f)
  {
    var once := RevokedWhere(rows, f);
    var twice := RevokedWhere(once, f);
    forall i | 0 <= i < |rows| ensures twice[i] == once[i] {
      assert once[i].(isRevoked := rows[i].isRevoked) == rows[i];
      assert twice[i].(isRevoked := once[i].isRevoked) == once[i];
    }
  }

  /** Revocation keeps every constraint: token strings, owners and widths do not change. */
  lemma RevokeKeepsValid(users: seq<UserRow>, rows: seq<RefreshTokenRow>, sessions: seq<SessionRow>, f: TokenFilter)
    requires Valid(users, rows, sessions)
    ensures Valid(users, RevokedWhere(rows, f), sessions)
  {
    var r := RevokedWhere(rows, f);
    forall i | 0 <= i < |rows|
      ensures r[i].token == rows[i].token && r[i].userId == rows[i].userId && RefreshTokenRowFits(r[i])
    {
      assert r[i].(isRevoked := rows[i].isRevoked) == rows[i];
    }
  }

  /** Revoking the tokens of one user leaves every other user's rows as they were. */
  lemma RevokeOfUserSparesOthers(rows: seq<RefreshTokenRow>, userId: UserId, i: nat)
    requires i < |rows| && rows[i].userId != userId
    ensures RevokedWhere(rows, OfUser(userId))[i] == rows[i]
  {
    var r := RevokedWhere(rows, OfUser(userId));
    assert r[i].(isRevoked := rows[i].isRevoked) == rows[i];
  }

  /** Because RefreshTokens.token is unique, an update by token touches at most one row. */
  lemma TokenFilterSelectsAtMostOne(rows: seq<RefreshTokenRow>, t: string, i: nat, j: nat)
    requires UniqueTokens(rows)
    requires i < |rows| && j < |rows|
    requires Selects(WithToken(t), rows[i]) && Selects(WithToken(t), rows[j])
    ensures i == j
  {
  }
}
