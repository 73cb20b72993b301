# Knowva authentication core in Dafny

This project models the authentication core of the Knowva trivia game, in two halves.

**Server.** The user service registers, logs in, refreshes and logs out users, and reads and patches profiles. It does this over three relational tables: users, refresh tokens and user sessions. The password strength policy is modelled too. The model covers:
- the validation rules: password policy, e-mail and username patterns, display-name length;
- the derived values: win rate and the rank step function;
- the rotation of opaque refresh tokens with revocation;
- the "is online" derivation from recent sessions.

**Client.** The client's MVI view models for login, registration and profile are modelled, with the contract types they share. So are the repository that stores the access and refresh tokens, and the MVI base class with its `LoadingState` helpers.

Modelling choices:
- The database is the three fields of the `UserService.UserService` class, kept as sequences of rows. A user's id is the row's position. One `now: Instant` (milliseconds) stands for every clock read of one transaction.
- bcrypt is replaced by a parameter: the password hash is passed in, and verification is a predicate `verifyPassword`. JWT issuance is the datatype `AccessToken(subject, sessionId)`. The random refresh and session tokens are parameters, and the methods require them to be fresh.
- Win rate is an exact `real`.
- The client's coroutines are recorded as jobs in `MviBase.MviViewModel.launched`. A `Run…Job(k, outcome)` method runs job `k` with the outcome of the remote call given as a `Result<T, Throwable>`.
- The client repository records the server calls it makes in a `calls` field.
- The login and registration screens carry identical copies of the e-mail and password validators. They are modelled once, in `ClientValidation`.
- `ValidationAgreement` relates the client validators to the server's rules: which inputs one side accepts and the other rejects.

## Model

| member | source | states |
|---|---|---|
| PasswordService.ValidatePasswordStrength | server/src/main/kotlin/com/knowva/app/services/PasswordService.kt:15-26 | six independent checks, each appending its message when it fails, whose character-class checks scan the password for one matching character; the result is exactly the policy's messages, in rule order |
| PasswordService.NoErrorsIffStrong | server/src/main/kotlin/com/knowva/app/services/PasswordService.kt:15-26 | the error list is empty if and only if the password is 8 to 128 characters long and has a digit, an upper-case letter, a lower-case letter and a special character |
| PasswordService.LengthMessages | server/src/main/kotlin/com/knowva/app/services/PasswordService.kt:17-18 | the too-short message appears exactly when the length is under 8, the too-long message exactly when it is over 128; never both, and at most five messages in all |
| PasswordService.PermutationInvariant | server/src/main/kotlin/com/knowva/app/services/PasswordService.kt:15-26 | reordering a password's characters does not change its error list |
| PasswordService.LengthBoundaries | server/src/main/kotlin/com/knowva/app/services/PasswordService.kt:17-18 | 7 characters give the too-short message first, 128 give no length message, 129 give the too-long message first |
| PasswordService.AlnumHasNoSpecial | server/src/main/kotlin/com/knowva/app/services/PasswordService.kt:22 | a password of letters and digits only always lacks a special character |
| PasswordService.OutsideSpecialSet | server/src/main/kotlin/com/knowva/app/services/PasswordService.kt:22 | characters outside the fixed punctuation set, such as space or tilde, do not count as special, so "Abcdefg1~" fails only for the missing special character |
| PasswordService.StrongExample | server/src/main/kotlin/com/knowva/app/services/PasswordService.kt:15-26 | "Abcdef1!" has no errors |
| PasswordService.LowercaseOnlyExample | server/src/main/kotlin/com/knowva/app/services/PasswordService.kt:15-26 | "abcdefgh" lacks an upper-case letter, a digit and a special character, and nothing else |
| PasswordService.ShortExample | server/src/main/kotlin/com/knowva/app/services/PasswordService.kt:15-26 | "short" gets every message except the too-long and lower-case ones |
| DatabaseTables.DecodeOr | server/src/main/kotlin/com/knowva/app/database/DatabaseTables.kt:18-32 | a JSON column that fails to decode yields the default; one that decodes yields its value |
| DatabaseTables.InsertUser | server/src/main/kotlin/com/knowva/app/database/DatabaseTables.kt:9-40 | a new user row carries the given identity fields and the column defaults: statistics start at zero, level at 1, active and unverified |
| DatabaseTables.InsertRefreshToken | server/src/main/kotlin/com/knowva/app/database/DatabaseTables.kt:42-54 | a new refresh-token row is unrevoked and owned by the given user |
| DatabaseTables.InsertSession | server/src/main/kotlin/com/knowva/app/database/DatabaseTables.kt:56-67 | a new session row is active and starts at the given time |
| DatabaseTables.FirstOrNull | server/src/main/kotlin/com/knowva/app/services/UserService.kt:96-99 | the first matching row is returned, or none when no row matches |
| DatabaseTables.Count | server/src/main/kotlin/com/knowva/app/services/UserService.kt:297-308 | the count is positive if and only if some row matches |
| DatabaseTables.RevokedWhere | server/src/main/kotlin/com/knowva/app/services/UserService.kt:118-121 | every selected row becomes revoked; unselected rows stay unchanged; nothing else in a row changes |
| DatabaseTables.RevokeWhere | server/src/main/kotlin/com/knowva/app/services/UserService.kt:118-121 | the in-place update loop leaves exactly the rows that the revocation function describes |
| DatabaseTables.RevokeIdempotent | server/src/main/kotlin/com/knowva/app/services/UserService.kt:256-262 | revoking twice with the same filter is the same as revoking once |
| DatabaseTables.RevokeKeepsValid | server/src/main/kotlin/com/knowva/app/database/DatabaseTables.kt:42-54 | revocation keeps the table constraints: unique tokens, existing owners |
| DatabaseTables.RevokeOfUserSparesOthers | server/src/main/kotlin/com/knowva/app/services/UserService.kt:118-121 | revoking one user's tokens leaves other users' tokens unchanged |
| DatabaseTables.TokenFilterSelectsAtMostOne | server/src/main/kotlin/com/knowva/app/database/DatabaseTables.kt:45 | with unique tokens, filtering by token string selects at most one row |
| UserRules.WinRateRange | server/src/main/kotlin/com/knowva/app/services/UserService.kt:202-204 | the win rate lies between 0 and 100 whenever games won do not exceed games played |
| UserRules.WinRateBelow | server/src/main/kotlin/com/knowva/app/services/UserService.kt:202-204 | a win-rate threshold comparison equals an integer comparison of the counts |
| UserRules.CalculateUserRank | server/src/main/kotlin/com/knowva/app/services/UserService.kt:310-319 | the rank is one of the six names; Beginner exactly when the level is below 5; Master at level 100 or more, or at level 5 or more with a win rate of at least 90 |
| UserRules.RankMatchesTierTable | server/src/main/kotlin/com/knowva/app/services/UserService.kt:310-319 | the rank equals the first tier in the table whose level and win-rate gates both pass, with the fall-through between tiers kept |
| UserRules.FallThroughExamples | server/src/main/kotlin/com/knowva/app/services/UserService.kt:310-319 | level 3 at 100% is Beginner; level 7 is Novice at 40%, Intermediate at 60% and Master at 95%; level 12 is Intermediate at 60% and Advanced at 75% |
| UserRules.IsValidEmailCorrect | server/src/main/kotlin/com/knowva/app/services/UserService.kt:321-323 | the scanning matcher accepts an e-mail exactly when it matches the pattern: local chars, an at sign, domain chars, a dot and at least two letters |
| UserRules.ValidEmailExample | server/src/main/kotlin/com/knowva/app/services/UserService.kt:321-323 | a typical address is accepted |
| UserRules.NoTopLevelDomainExample | server/src/main/kotlin/com/knowva/app/services/UserService.kt:321-323 | an address without a dotted top-level domain is rejected |
| UserRules.LowercaseKeepsUsernameValid | server/src/main/kotlin/com/knowva/app/services/UserService.kt:325-327 | lower-casing a valid username keeps it valid |
| UserRules.IsUserOnline | server/src/main/kotlin/com/knowva/app/services/UserService.kt:297-308 | online if and only if the user has an active session created less than five minutes ago |
| UserRules.OnlineWindow | server/src/main/kotlin/com/knowva/app/services/UserService.kt:297-308 | a session counts as online from its creation time until five minutes later |
| UserRules.OfflineAfterWindow | server/src/main/kotlin/com/knowva/app/services/UserService.kt:297-308 | once every active session of the user is five minutes old or older, the user is offline |
| UserService.FindConflict | server/src/main/kotlin/com/knowva/app/services/UserService.kt:46-55 | the conflict found is with an existing row of the same e-mail or username, or none exists |
| UserService.FindByEmail | server/src/main/kotlin/com/knowva/app/services/UserService.kt:96-99 | the row found has the given e-mail and is the first such row; none means no row has it |
| UserService.FindUsableToken | server/src/main/kotlin/com/knowva/app/services/UserService.kt:144-152 | the row found holds the presented token, unrevoked and unexpired, and its owner is active; none means no such row |
| UserService.ProfileOf | server/src/main/kotlin/com/knowva/app/services/UserService.kt:184-226 | the profile copies the row, decodes badges and preferences with defaults, gives win rate 0 for no games, keeps it in 0..100, and the rank of the counts |
| UserService.StatsOf | server/src/main/kotlin/com/knowva/app/services/UserService.kt:264-281 | the statistics copy the row; the win rate times games played equals games won times 100 |
| UserService.StatsAgreeWithProfile | server/src/main/kotlin/com/knowva/app/services/UserService.kt:264-281 | the statistics and the profile of one user agree on every shared figure |
| UserService.Patched | server/src/main/kotlin/com/knowva/app/services/UserService.kt:228-254 | only the fields present in the request change, lastActiveAt becomes now, everything else is kept |
| UserService.LoginLeavesOneLiveToken | server/src/main/kotlin/com/knowva/app/services/UserService.kt:118-132 | after the revoke-then-insert step of login, the user's only live token is the new one |
| UserService.ConsumedNeverUsable | server/src/main/kotlin/com/knowva/app/services/UserService.kt:144-182 | a consumed token can never again be found usable |
| UserService.RevokedTokenUnusable | server/src/main/kotlin/com/knowva/app/services/UserService.kt:144-152 | a revoked row is never usable |
| UserService.RevokeKeepsConsumed | server/src/main/kotlin/com/knowva/app/services/UserService.kt:256-262 | revocation never brings a consumed token back |
| UserService.InsertKeepsConsumed | server/src/main/kotlin/com/knowva/app/services/UserService.kt:73-78 | inserting a fresh token never brings a consumed token back |
| UserService.RefreshConsumes | server/src/main/kotlin/com/knowva/app/services/UserService.kt:144-182 | rotation consumes the presented token |
| UserService.InsertUserKeepsValid | server/src/main/kotlin/com/knowva/app/services/UserService.kt:57-64 | inserting a user with a new lower-case e-mail and username keeps the table constraints |
| UserService.RegisteredRowFits | server/src/main/kotlin/com/knowva/app/services/UserService.kt:57-64 | a user row built from a validated username, a register request that fits and a 60-character bcrypt hash fits every column of the users table |
| UserService.JoinLength | server/src/main/kotlin/com/knowva/app/services/UserService.kt:32-35 | joining n password messages keeps all their characters and adds exactly n - 1 separators |
| UserService.JoinEnds | server/src/main/kotlin/com/knowva/app/services/UserService.kt:32-35 | the joined details start with the first message and end with the last |
| UserService.UpdateUserKeepsValid | server/src/main/kotlin/com/knowva/app/services/UserService.kt:228-254 | patching a profile keeps the table constraints |
| UserService.InsertTokenKeepsValid | server/src/main/kotlin/com/knowva/app/services/UserService.kt:73-78 | inserting a fresh token for an existing user keeps the constraints |
| UserService.InsertSessionKeepsValid | server/src/main/kotlin/com/knowva/app/services/UserService.kt:283-295 | inserting a fresh session for an existing user keeps the constraints |
| UserService.RevokeKeepsFresh | server/src/main/kotlin/com/knowva/app/services/UserService.kt:118-121 | a token fresh before revocation stays fresh after it |
| UserService.NewSessionIsOnline | server/src/main/kotlin/com/knowva/app/services/UserService.kt:283-308 | a user with a session created now is online |
| UserService.UserService.GetUserProfileById | server/src/main/kotlin/com/knowva/app/services/UserService.kt:184-226 | NotFound exactly for an unknown id; otherwise the profile of the row, online exactly when a recent active session exists |
| UserService.UserService.GetUserStats | server/src/main/kotlin/com/knowva/app/services/UserService.kt:264-281 | NotFound exactly for an unknown id; otherwise the statistics of the row |
| UserService.UserService.CreateUserSession | server/src/main/kotlin/com/knowva/app/services/UserService.kt:283-295 | appends one active session expiring in 7 days, returns its token, and the user is then online |
| UserService.UserService.RegisterUser | server/src/main/kotlin/com/knowva/app/services/UserService.kt:24-89 | password errors, then e-mail pattern, then username pattern, then e-mail or username conflict, in that order, each with its message and no state change; then a display name over 100 characters, an e-mail over 255 or a client address over 45 gives a storage error (500) and no state change; on success one user, one session and one refresh token are added, and the profile is online, Beginner, win rate 0 |
| UserService.UserService.StoreNewUser | server/src/main/kotlin/com/knowva/app/services/UserService.kt:57-88 | appends exactly one user row, one session and one refresh token, in that order, and returns their tokens and the new profile |
| UserService.UserService.LoginUser | server/src/main/kotlin/com/knowva/app/services/UserService.kt:91-142 | an unknown e-mail and a wrong password give the same unauthorized error; a deactivated account gets its own; a client address over 45 characters then gives a storage error (500) and no state change; on success the user's old tokens are revoked, the new token is their only live one, and a session is added |
| UserService.UserService.StoreLogin | server/src/main/kotlin/com/knowva/app/services/UserService.kt:111-141 | revokes every token of the user, appends one session and one refresh token, stamps the last-active time and returns the new tokens |
| UserService.UserService.RefreshToken | server/src/main/kotlin/com/knowva/app/services/UserService.kt:144-182 | unauthorized exactly when no usable token matches; otherwise the presented token is consumed and one fresh token for the same user is appended |
| UserService.UserService.UpdateUserProfile | server/src/main/kotlin/com/knowva/app/services/UserService.kt:228-254 | display-name length, then avatar URL, then an avatar URL over 500 characters (storage error, 500), then unknown user; on success exactly the user's row is patched; tokens and sessions untouched |
| UserService.UserService.LogoutUser | server/src/main/kotlin/com/knowva/app/services/UserService.kt:256-262 | with a token, every row holding it is revoked; without one nothing changes; sessions are left active |
| UserService.RefreshReplay | server/src/main/kotlin/com/knowva/app/services/UserService.kt:144-182 | refreshing the same token twice: if the first succeeds, the second is unauthorized |
| ApiModels.MessageOr | composeApp/src/commonMain/kotlin/com/knowva/app/presentation/features/auth/LoginViewModel.kt:83-95 | an exception's message, or the fallback when it has none |
| MviBase.MviViewModel.SetState | composeApp/src/commonMain/kotlin/com/knowva/app/presentation/mvi/MviBase.kt:42-44 | the state becomes the reducer applied to the old state; nothing else changes |
| MviBase.MviViewModel.EmitSideEffect | composeApp/src/commonMain/kotlin/com/knowva/app/presentation/mvi/MviBase.kt:49-53 | the side effect is appended to the queue; nothing else changes |
| MviBase.ErrorOf | composeApp/src/commonMain/kotlin/com/knowva/app/presentation/mvi/MviBase.kt:93-96 | the error's message is the exception's, or "Unknown error" |
| MviBase.ExactlyOneStatus | composeApp/src/commonMain/kotlin/com/knowva/app/presentation/mvi/MviBase.kt:89-102 | exactly one of isIdle, isLoading, isSuccess and isError holds |
| MviBase.GetDataOrNull | composeApp/src/commonMain/kotlin/com/knowva/app/presentation/mvi/MviBase.kt:107-110 | data present exactly in the success state, and it is that state's data |
| MviBase.GetErrorOrNull | composeApp/src/commonMain/kotlin/com/knowva/app/presentation/mvi/MviBase.kt:115-118 | a message present exactly in the error state, and it is that state's message |
| AuthRepository.AuthRepository.ClearTokens | composeApp/src/commonMain/kotlin/com/knowva/app/data/repositories/AuthRepository.kt:67-71 | both tokens are removed and the user is logged out |
| AuthRepository.AuthRepository.Login | composeApp/src/commonMain/kotlin/com/knowva/app/data/repositories/AuthRepository.kt:34-43 | one login call; tokens saved on success, kept on failure; the result is the response's user or its failure |
| AuthRepository.AuthRepository.Register | composeApp/src/commonMain/kotlin/com/knowva/app/data/repositories/AuthRepository.kt:45-59 | one register call; tokens saved on success, kept on failure |
| AuthRepository.AuthRepository.Logout | composeApp/src/commonMain/kotlin/com/knowva/app/data/repositories/AuthRepository.kt:61-74 | the server is called only when a refresh token is stored; the tokens are cleared whether or not the call fails |
| AuthRepository.AuthRepository.GetProfile | composeApp/src/commonMain/kotlin/com/knowva/app/data/repositories/AuthRepository.kt:76-83 | one profile call; tokens untouched; the response is passed through |
| AuthRepository.AuthRepository.UpdateProfile | composeApp/src/commonMain/kotlin/com/knowva/app/data/repositories/AuthRepository.kt:85-97 | one update call carrying the given fields; tokens untouched |
| AuthRepository.AuthRepository.RefreshTokenIfNeeded | composeApp/src/commonMain/kotlin/com/knowva/app/data/repositories/AuthRepository.kt:107-119 | no stored refresh token: nothing happens; success: the new pair is saved; failure: both tokens are cleared |
| LoginContract.InitialState | composeApp/src/commonMain/kotlin/com/knowva/app/presentation/features/auth/AuthContract.kt:10-18 | empty fields, not loading, no errors, password hidden |
| RegisterContract.InitialState | composeApp/src/commonMain/kotlin/com/knowva/app/presentation/features/auth/AuthContract.kt:36-51 | empty fields, not loading, no errors, both passwords hidden |
| ProfileContract.InitialState | composeApp/src/commonMain/kotlin/com/knowva/app/presentation/features/auth/AuthContract.kt:73-81 | no profile, not loading, not editing, no error |
| ClientValidation.ValidateEmail | composeApp/src/commonMain/kotlin/com/knowva/app/presentation/features/auth/LoginViewModel.kt:99-105 | no error exactly for a non-blank address containing an at sign; otherwise the required or the format message |
| ClientValidation.ValidatePassword | composeApp/src/commonMain/kotlin/com/knowva/app/presentation/features/auth/LoginViewModel.kt:107-113 | no error exactly for a non-blank password of at least 6 characters; otherwise the required or the too-short message |
| ClientValidation.WhitespacePasswordIsRequired | composeApp/src/commonMain/kotlin/com/knowva/app/presentation/features/auth/LoginViewModel.kt:107-113 | a password of blanks only gets the required message |
| LoginViewModel.Reduce | composeApp/src/commonMain/kotlin/com/knowva/app/presentation/features/auth/LoginViewModel.kt:14-73 | each intent changes only its own fields; edits clear that field's error; a click with invalid input shows the validation errors and starts nothing |
| LoginViewModel.ToggleTwice | composeApp/src/commonMain/kotlin/com/knowva/app/presentation/features/auth/LoginViewModel.kt:36-42 | toggling the password visibility twice restores the state |
| LoginViewModel.RejectedClickShowsError | composeApp/src/commonMain/kotlin/com/knowva/app/presentation/features/auth/LoginViewModel.kt:58-73 | a rejected click leaves the screen not loading with at least one error shown |
| LoginViewModel.LoginViewModel.HandleIntent | composeApp/src/commonMain/kotlin/com/knowva/app/presentation/features/auth/LoginViewModel.kt:14-56 | the state becomes the reducer's; a login job is launched exactly when the click's input is accepted |
| LoginViewModel.LoginViewModel.RunLoginJob | composeApp/src/commonMain/kotlin/com/knowva/app/presentation/features/auth/LoginViewModel.kt:77-96 | the repository is called with the job's credentials; success stops loading and navigates home; failure shows the message or the login-failed fallback |
| RegisterViewModel.ValidateUsername | composeApp/src/commonMain/kotlin/com/knowva/app/presentation/features/auth/RegisterViewModel.kt:163-170 | no error exactly for a non-blank name of at least 3 word characters; otherwise the matching message, in rule order |
| RegisterViewModel.ValidateDisplayName | composeApp/src/commonMain/kotlin/com/knowva/app/presentation/features/auth/RegisterViewModel.kt:172-178 | no error exactly for a non-blank name of at least 2 characters |
| RegisterViewModel.ValidateConfirmPassword | composeApp/src/commonMain/kotlin/com/knowva/app/presentation/features/auth/RegisterViewModel.kt:188-194 | no error exactly for a non-blank confirmation equal to the password |
| RegisterViewModel.Reduce | composeApp/src/commonMain/kotlin/com/knowva/app/presentation/features/auth/RegisterViewModel.kt:14-100 | each intent changes only its own fields; a password edit rechecks a non-empty confirmation; a click with invalid input shows every validator's result |
| RegisterViewModel.TogglesTwice | composeApp/src/commonMain/kotlin/com/knowva/app/presentation/features/auth/RegisterViewModel.kt:71-81 | toggling either visibility twice restores the state |
| RegisterViewModel.EmptyConfirmation | composeApp/src/commonMain/kotlin/com/knowva/app/presentation/features/auth/RegisterViewModel.kt:46-69 | clearing the confirmation reports a mismatch; a password edit with no confirmation reports none |
| RegisterViewModel.RegisterViewModel.HandleIntent | composeApp/src/commonMain/kotlin/com/knowva/app/presentation/features/auth/RegisterViewModel.kt:14-100 | the state becomes the reducer's; a registration job is launched exactly when the input is accepted |
| RegisterViewModel.RegisterViewModel.RunRegisterJob | composeApp/src/commonMain/kotlin/com/knowva/app/presentation/features/auth/RegisterViewModel.kt:130-152 | the repository is called with the job's fields; success navigates home; failure shows the message or the fallback |
| ProfileViewModel.Reduce | composeApp/src/commonMain/kotlin/com/knowva/app/presentation/features/auth/ProfileViewModel.kt:19-79 | start and cancel editing copy or reset the edit fields; saving a blank name shows an error and starts nothing; logout does not touch the state |
| ProfileViewModel.Started | composeApp/src/commonMain/kotlin/com/knowva/app/presentation/features/auth/ProfileViewModel.kt:19-79 | at most one job per intent; the save job carries the edited fields exactly when the name is not blank |
| ProfileViewModel.ProfileViewModel.constructor | composeApp/src/commonMain/kotlin/com/knowva/app/presentation/features/auth/ProfileViewModel.kt:15-17 | a new view model is loading and has launched one profile load |
| ProfileViewModel.ProfileViewModel.HandleIntent | composeApp/src/commonMain/kotlin/com/knowva/app/presentation/features/auth/ProfileViewModel.kt:19-79 | the state becomes the reducer's and the launched jobs are those of Started |
| ProfileViewModel.ProfileViewModel.RunLoadProfileJob | composeApp/src/commonMain/kotlin/com/knowva/app/presentation/features/auth/ProfileViewModel.kt:81-109 | one profile call, tokens untouched; success stores the profile and clears the error; failure shows the message or the load-failed fallback |
| ProfileViewModel.ProfileViewModel.RunSaveProfileJob | composeApp/src/commonMain/kotlin/com/knowva/app/presentation/features/auth/ProfileViewModel.kt:111-154 | one update call with the job's fields; success stores the profile, leaves editing and shows the updated message; failure shows the message or the update-failed fallback |
| ProfileViewModel.ProfileViewModel.RunLogoutJob | composeApp/src/commonMain/kotlin/com/knowva/app/presentation/features/auth/ProfileViewModel.kt:156-167 | the repository logs out, the tokens are cleared whatever the server answers, and the screen navigates to authentication |
| ValidationAgreement.ServerUsernamePassesClient | server/src/main/kotlin/com/knowva/app/services/UserService.kt:325-327 | every username the server accepts passes the client validator |
| ValidationAgreement.ClientUsernameOnServer | composeApp/src/commonMain/kotlin/com/knowva/app/presentation/features/auth/RegisterViewModel.kt:163-170 | a username the client accepts is valid on the server exactly when it has at most 50 characters |
| ValidationAgreement.LongUsernameOnlyClientAccepts | composeApp/src/commonMain/kotlin/com/knowva/app/presentation/features/auth/RegisterViewModel.kt:163-170 | a 51-letter username passes the client and fails the server |
| ValidationAgreement.ServerEmailPassesClient | server/src/main/kotlin/com/knowva/app/services/UserService.kt:321-323 | every e-mail the server accepts passes the client validator |
| ValidationAgreement.DomainlessEmailOnlyClientAccepts | composeApp/src/commonMain/kotlin/com/knowva/app/presentation/features/auth/LoginViewModel.kt:99-105 | the client lets through an address the server rejects |
| ValidationAgreement.StrongPasswordPassesClient | server/src/main/kotlin/com/knowva/app/services/PasswordService.kt:15-26 | every password the server's policy accepts passes the client validator |
| ValidationAgreement.ShortPasswordOnlyClientAccepts | composeApp/src/commonMain/kotlin/com/knowva/app/presentation/features/auth/LoginViewModel.kt:107-113 | passwords of 6 or 7 characters pass the client but fail the server policy |

## Left out

- Password hashing: bcrypt's salt and cost are not modelled. `hashPassword` is replaced by a hash passed in, `verifyPassword` by a predicate parameter, so their round trip is not a claim of this model.
- JWT signing, expiry and validation (JwtService.kt) are not part of this model. The access token is the pair of subject and session id it would carry.
- Random values: UUID and refresh-token generation enter as parameters that are required fresh. The random session id of refresh is a parameter and is never stored, as in the source.
- `UUID.fromString` on a malformed id string: ids are row positions, so the exception it would raise is not modelled.
- `isValidUrl` is a predicate parameter, because `java.net.URL` parsing is outside the model.
- JSON encoding and decoding of the preferences and badges columns: a column is either decodable text with its value or undecodable text. Only the lenient fall-back to the default is modelled.
- UserService.ProfileOf: the win rate is an exact real, not a double rounded to one decimal with `%.1f`. The rank is computed from that exact value.
- UserService.StatsOf: the win rate is exact, not double arithmetic.
- Text lengths count characters of `seq<char>`, not UTF-16 code units. There is no Unicode case folding: lower-casing is ASCII only.
- The cascade-delete foreign keys: no operation of the core deletes rows.
- Column widths are modelled as a check before each write: a value longer than its varchar column gives `StorageError`, the 500 into which an exception inside the transaction turns, and the transaction leaves no change. Generated values (the 60-character bcrypt hash, the 73-character refresh token, the 36-character session UUID) always fit and are required to have those lengths. The exact point inside the transaction at which the database driver raises is not modelled.
- UserService.UserService.RegisterUser: when the e-mail and the username collide with two different rows, the model reports the conflict of the row that comes first in table order. The source's SELECT has no ORDER BY, so it may report either field.
- Character classes are ASCII only: digits are `0`-`9`, upper and lower case are `A`-`Z` and `a`-`z`, and blank means ASCII whitespace. Kotlin's `isDigit`, `isUpperCase`, `isLowerCase` and `isBlank` are Unicode-aware, so non-ASCII letters, digits and spaces (such as `Ä`, or U+00A0 and U+2003) are classified differently. This affects PasswordService.ValidatePasswordStrength and PasswordService.PasswordErrors, ClientValidation.ValidateEmail and ClientValidation.ValidatePassword, the RegisterViewModel validators and ProfileViewModel.SaveAccepted. The e-mail and username patterns use ASCII `[A-Za-z0-9…]` classes in the source as well, so UserRules.IsValidEmail and UserRules.IsValidUsername are exact.
- Transactions and concurrency: each operation runs as one atomic method on the service object. Isolation between concurrent transactions is not modelled; RefreshReplay shows only the sequential replay.
- A single `now` per operation stands for the several `Instant.now()` reads of one transaction.
- The server never checks a session's expiry or deactivates it on logout; the model keeps this.
- HTTP routing, status-page mapping and the client's HTTP client are not part of the model. The outcome of each remote call is a parameter.
- Client coroutines, `StateFlow` and `Channel` delivery: a launched job runs when its `Run…Job` method is called. Side-effect emission is an append to a sequence.
- `getAccessTokenFlow` and the persistent key-value storage behind the token storage: the stored tokens are two fields, and storage never fails.
