# Portfolio backend: admin sessions and document rules, in Dafny

This project models the server side of a personal portfolio site (an Express
application over MongoDB). It covers two parts.

**Admin sessions.**
- The administrator account (`Admin.js`): the lockout state machine driven by
  failed logins, the ordered credential check of `getAuthenticated`, and the
  refresh-token set with its append, remove-by-value and seven-day purge.
- The token utilities (`jwt.js`): the Bearer header extractor, access and
  refresh tokens signed under separate keys and checked for `exp`, `iss` and
  `aud` (sections 4.1.1, 4.1.3 and 4.1.4 of RFC 7519), and the two cookie
  policies.
- The request gates (`auth.js`): the strict and optional authentication
  gates, the role gate, the per-address fixed-window rate limiter and the
  session check.
- The login, logout and refresh-rotation handlers (`authController.js`) and
  the one-shot creation of the first administrator (`setupController.js`).

**Document rules.**
- The contact message (`Message.js`, `messageController.js`): field bounds,
  spam scoring and auto-categorisation in the pre-save hook, status
  transitions, the admin handlers and the bulk update.
- The blog post (`Blog.js`): slug generation, read time, first publication
  date, generated meta fields, counters.
- The project (`Project.js`): slug derivation, short-description and SEO
  defaults, URL validators, view, like and click counters.

How the model is built:
- Time is an explicit `now` in milliseconds. Tokens carry whole seconds,
  `now / 1000`.
- A bcrypt digest is an ideal one-way value: a candidate compares equal
  exactly to the password it was made from.
- A signed token is a datatype (payload, `iat`, `exp`, `iss`, `aud`,
  signing key). The key stands for the HMAC signature. Its wire form is a
  length-prefixed encoding, proved to decode back to the token
  (`TokenCodec`).
- The admin and message collections are classes holding `docs: map<id, record>`
  (`AdminStore`, `MessageStore`). Blog and project documents are modelled one
  document at a time, with no collection around them.
- A loaded document whose instance methods change fields in place is a class
  (`Message`, `Blog`, `Project`). Each class has a `Record()` view, and its
  methods are proved equal to pure functions on records.
- Every `save()` first validates the document, the paths it was loaded with
  included, and only then runs the pre-save hook, as Mongoose orders them. The
  hook is modelled once and re-used by every method that saves.
- An `ApiError` thrown in a handler is answered by the global error handler
  in `backend/src/app.js`: its status code, or 500 when it has none.

Files: `wrappers.dfy` (Option/Result), `text.dfy` (JavaScript string
operations), `token_codec.dfy`, `jwt.dfy`, `admin.dfy`, `http.dfy`,
`auth_gate.dfy`, `auth_controller.dfy`, `setup_controller.dfy`,
`message.dfy`, `message_controller.dfy`, `blog.dfy`, `project.dfy`.

Where the code and its own comments or design notes disagree, the model
follows the code:
- Every failed access-token check is reported as `TOKEN_EXPIRED`. The
  verifier's one message contains "expired", and that word is looked for
  first.
- A refresh token that fails verification is answered with 500, not 401.
- `NOT_FOUND` is reason code 0, so the message switch is skipped and an
  unknown email gets "Authentication failed.".
- The blog slug's `.trim('-')` trims white space only.
- The message capitals rule never fires: it counts capitals in a lower-cased
  text.
- Logout and the blog slug are treated under "Findings" below.

## Model

| member | source | states |
|---|---|---|
| TokenCodec.DecodeEncode | backend/src/utils/jwt.js:14-34 | decoding the serialization of any token gives that token back |
| TokenCodec.EncodeInjective | backend/src/utils/jwt.js:14-34 | distinct tokens have distinct serializations |
| Jwt.RefreshSecret | backend/src/utils/jwt.js:27-34 | the refresh key is the secret plus "-refresh", hence always different from the access key |
| Jwt.LibraryVerify | backend/src/utils/jwt.js:41-50 | verification succeeds iff the token decodes, was signed with the key, `exp` is still ahead of the clock in seconds, and `aud`/`iss` are the configured ones; then it yields the payload |
| Jwt.VerifyAccessToken | backend/src/utils/jwt.js:41-50 | succeeds exactly when the library check under the secret does; every failure is the one message "Invalid or expired access token" |
| Jwt.VerifyRefreshToken | backend/src/utils/jwt.js:57-67 | the same, under the refresh key, with "Invalid or expired refresh token" |
| Jwt.Sign | backend/src/utils/jwt.js:14-34 | the token decodes to the payload under the key, issued at the current whole second, expiring the lifetime later, with issuer 'portfolio-admin' and audience 'portfolio-app' |
| Jwt.GenerateAccessToken | backend/src/utils/jwt.js:14-20 | the token passes the library check under the secret at its issue time, giving back the payload, and expires 15 minutes after its issue second |
| Jwt.GenerateRefreshToken | backend/src/utils/jwt.js:27-34 | the token passes the library check under the secret with '-refresh' appended, giving back the payload, fails it under the plain secret, and expires 7 days after its issue second |
| Jwt.GenerateTokenPair | backend/src/utils/jwt.js:83-92 | the pair reports `expiresIn` '15m' |
| Jwt.ExtractTokenFromHeader | backend/src/utils/jwt.js:99-104 | a token is returned iff the header is present and starts with the case-sensitive "Bearer "; then the header is "Bearer " followed by the token |
| Jwt.GetTokenExpiration | backend/src/utils/jwt.js:111-118 | defined iff the token decodes, and then `exp` times 1000 |
| Jwt.IsTokenExpired | backend/src/utils/jwt.js:125-129 | a token that does not decode is expired; one that decodes is expired iff now has reached `exp` times 1000, so the test for a zero expiration never decides anything |
| Jwt.GetCookieConfig | backend/src/utils/jwt.js:134-142 | httpOnly, path '/', secure iff production, sameSite strict iff production else lax, max age the access lifetime (900000 ms) |
| Jwt.GetRefreshCookieConfig | backend/src/utils/jwt.js:147-155 | the same flags, path '/api/auth', max age the refresh lifetime (604800000 ms) |
| Jwt.AccessTokenRoundTrip | backend/src/utils/jwt.js:14-50 | an issued access token verifies to its payload exactly until 15 minutes (in whole seconds) after issue, and fails afterwards |
| Jwt.RefreshTokenRoundTrip | backend/src/utils/jwt.js:27-67 | the same for refresh tokens over 7 days |
| Jwt.KeysAreSeparate | backend/src/utils/jwt.js:14-67 | an access token never passes the refresh verifier and a refresh token never passes the access verifier |
| Jwt.ForeignKeyRefused | backend/src/utils/jwt.js:41-50 | a token signed under another secret is refused with the generic message |
| Jwt.TokenPairSharesPayload | backend/src/utils/jwt.js:83-92 | both tokens of a pair decode to the same payload |
| Jwt.SameSecondSameToken | backend/src/utils/jwt.js:27-34 | two refresh tokens for one payload are equal iff issued in the same second |
| Jwt.ExtractBearer | backend/src/utils/jwt.js:99-104 | "Bearer " followed by a token is read back as that token |
| Jwt.IsTokenExpiredAgreesWithVerify | backend/src/utils/jwt.js:111-129 | `isTokenExpired` is true iff the token does not decode or now is past `exp` in whole seconds, the verifier's clock check |
| Jwt.IssuedTokenExpiry | backend/src/utils/jwt.js:111-129 | for an issued access token, "expired" and "no longer verifies" coincide |
| Jwt.CookiePolicies | backend/src/utils/jwt.js:134-155 | the two cookie policies differ only in max age and path; ages are 900000 and 604800000 ms |
| AdminModel.RoleName | backend/src/models/Admin.js:22-26 | a role is stored as 'admin' or 'super_admin', one per role |
| AdminModel.IsLocked | backend/src/models/Admin.js:54-56 | locked means a lock time is set and still ahead of now; on a record whose lock bookkeeping is consistent this implies five or more failed attempts |
| AdminModel.HashPassword | backend/src/models/Admin.js:58-71 | the stored hash has cost 12 and compares equal exactly to the password it was made from |
| AdminModel.ComparePassword | backend/src/models/Admin.js:74-80 | a digest accepts a candidate exactly when it is the digest of that candidate at the digest's own cost |
| AdminModel.AfterFailedAttempt | backend/src/models/Admin.js:82-106 | a stale lock restarts the counter at 1 and drops the lock; otherwise the counter rises by one, and the fifth attempt on an unlocked account sets a lock two hours from now; nothing else changes |
| AdminModel.AfterSuccessfulLogin | backend/src/models/Admin.js:108-119 | attempts cleared, lock removed, `lastLogin` set to now, so the account is unlocked at every time |
| AdminModel.ReasonCode | backend/src/models/Admin.js:121-128 | every reason has a code below 5 |
| AdminModel.ReasonCodesDistinct | backend/src/models/Admin.js:121-128 | the five reasons have distinct codes, and `NOT_FOUND` alone is 0 |
| AdminModel.LoginStep | backend/src/models/Admin.js:139-166 | for a found account: success iff active, not locked and the password compares; inactive and locked accounts are refused untouched, in that order; a correct password resets, a wrong one counts; `MAX_ATTEMPTS` is never returned; consistent lockout bookkeeping is kept |
| AdminModel.WrongAttemptsCount | backend/src/models/Admin.js:96-105 | wrong passwords on an active, unlocked account raise the counter one by one, and the attempt reaching five sets the lock from its own time |
| AdminModel.FiveWrongPasswordsLock | backend/src/models/Admin.js:96-147 | from zero, five wrong passwords lock the account; the correct password before the lock time is refused as locked and leaves the record as it is |
| AdminModel.LockExpiresLazily | backend/src/models/Admin.js:54-56 | once the lock time has come, the correct password succeeds and clears the counter |
| AdminModel.AttemptsKeepLockoutConsistent | backend/src/models/Admin.js:82-119 | any run of login attempts keeps "lock set iff attempts reached five" |
| AdminModel.RemoveToken | backend/src/models/Admin.js:175-179 | every entry holding the value goes, every other entry stays |
| AdminModel.RemoveTokenMembership | backend/src/models/Admin.js:175-179 | after removal the value fails the membership test and every other value is as present as before |
| AdminModel.LiveTokens | backend/src/models/Admin.js:181-187 | exactly the entries created less than seven days before now are kept |
| AdminModel.LiveTokensIdempotent | backend/src/models/Admin.js:181-187 | purging twice at one time purges nothing more |
| AdminModel.AdminStore.FindByEmail | backend/src/models/Admin.js:132 | a loop over the ids returns an account with the email, or none iff no account has it |
| AdminModel.AdminStore.IncLoginAttempts | backend/src/models/Admin.js:82-106 | the stored account becomes `AfterFailedAttempt` of itself; emails stay unique |
| AdminModel.AdminStore.ResetLoginAttempts | backend/src/models/Admin.js:108-119 | the stored account becomes `AfterSuccessfulLogin` of itself |
| AdminModel.AdminStore.AddRefreshToken | backend/src/models/Admin.js:169-173 | exactly one entry, stamped now, is appended |
| AdminModel.AdminStore.RemoveRefreshToken | backend/src/models/Admin.js:175-179 | the token set becomes `RemoveToken` of itself |
| AdminModel.AdminStore.CleanExpiredTokens | backend/src/models/Admin.js:181-187 | the token set becomes `LiveTokens` of itself |
| AdminModel.AdminStore.Authenticate | backend/src/models/Admin.js:131-167 | `NOT_FOUND` iff no account has the email, and then nothing is written; otherwise the found account is written back as `LoginStep` leaves it and the outcome is `LoginStep`'s; a success returns the account as read |
| AdminModel.AdminStore.GetAuthenticated | backend/src/models/Admin.js:131-167 | the same, with the query email lower-cased and trimmed as the schema stores emails |
| AdminModel.AdminStore.SetLastLogin | backend/src/middlewares/auth.js:206-209 | `findByIdAndUpdate` sets `lastLogin` of that account only; an unknown id writes nothing |
| Http.ErrorStatus | backend/src/app.js:57-70 | a thrown error is answered with its status code, or 500 when it has none |
| AuthMiddleware.RequestToken | backend/src/middlewares/auth.js:12-20 | a non-empty `adminToken` cookie wins; otherwise the Bearer credentials of the header; an empty token counts as none |
| AuthMiddleware.ClassifyError | backend/src/middlewares/auth.js:71-92 | TOKEN_EXPIRED iff the message contains "expired"; INVALID_TOKEN iff not that and it contains "invalid" or "malformed"; otherwise AUTH_FAILED |
| AuthMiddleware.StrictGate | backend/src/middlewares/auth.js:8-67 | passes iff a token is present, verifies, and names an existing, active, unlocked account, and then yields that account; no token is NO_TOKEN; after verification a missing account is USER_NOT_FOUND, then an inactive one ACCOUNT_INACTIVE, then a locked one ACCOUNT_LOCKED; every refusal is 401 |
| AuthMiddleware.VerifyFailureIsTokenExpired | backend/src/middlewares/auth.js:71-78 | any verification failure is answered TOKEN_EXPIRED |
| AuthMiddleware.InvalidTokenUnreachable | backend/src/middlewares/auth.js:80-92 | the gate never answers INVALID_TOKEN or AUTH_FAILED |
| AuthMiddleware.FreshTokenPasses | backend/src/middlewares/auth.js:31-67 | a live access token of an active, unlocked account passes, for that account |
| AuthMiddleware.AuthenticateAdmin | backend/src/middlewares/auth.js:8-94 | `next` iff the gate passes; then `req.admin` is the account without password and tokens and the response is untouched; otherwise 401 with the rejection and the request untouched |
| AuthMiddleware.OptionalAuth | backend/src/middlewares/auth.js:100-126 | never answers; attaches the account exactly when the strict gate would pass, otherwise leaves the request as it was |
| AuthMiddleware.Authorize | backend/src/middlewares/auth.js:132-152 | passes iff an account is attached and the list is empty or names its role; no account is 401 AUTH_REQUIRED, a foreign role 403 INSUFFICIENT_PERMISSIONS |
| AuthMiddleware.AuthorizeSuperAdminOnly | backend/src/middlewares/auth.js:142-148 | a super-admin-only list admits exactly super admins |
| AuthMiddleware.CeilSeconds | backend/src/middlewares/auth.js:182 | the least whole number of seconds covering the milliseconds |
| AuthMiddleware.RateStep | backend/src/middlewares/auth.js:157-191 | a missing or elapsed window restarts at 0 for 15 minutes; at 10 the request is refused without counting, with `retryAfter` the seconds left; otherwise the count rises by one |
| AuthMiddleware.AdmittedWithinWindow | backend/src/middlewares/auth.js:167-188 | inside one window exactly the first `10 - count` requests get through and the window end stays |
| AuthMiddleware.AtMostTenPerWindow | backend/src/middlewares/auth.js:176-188 | from an address's first request, at most ten requests pass in the next fifteen minutes |
| AuthMiddleware.RateLimiter.Check | backend/src/middlewares/auth.js:157-191 | a refusal answers 429 and changes no counter; an admitted request stores its address's advanced window; other addresses are never touched |
| AuthMiddleware.ValidateSession | backend/src/middlewares/auth.js:196-211 | without an account, 401 INVALID_SESSION and nothing written; otherwise `lastLogin` of the stored account named by `adminId` becomes now, an absent or unknown id writes nothing, and the response is untouched |
| AuthController.MissingCredentials | backend/src/controllers/authController.js:21-23 | credentials pass only when both are present and non-empty; an empty string counts as missing, as JavaScript's `!` has it |
| AuthController.LoginFailureMessage | backend/src/controllers/authController.js:28-49 | 'Authentication failed.' exactly for NOT_FOUND (code 0 skips the switch); 'Invalid email or password.' exactly for a wrong password; the lock and inactive messages for their reasons |
| AuthController.PayloadFor | backend/src/controllers/authController.js:58-62 | the claims carry the account's id and email |
| AuthController.LoginByStoredEmail | backend/src/controllers/authController.js:25-90 | an unknown email is 401 with nothing written; a failed check writes `LoginStep`'s record and answers 401 with its message; a success appends the new refresh token, sets both cookies and returns the same access token with '15m' |
| AuthController.IssueLogin | backend/src/controllers/authController.js:58-89 | the account's set gains exactly the new refresh token, stamped now; both cookies are set under their policies; the reply is 200 with the account as read, the access token and '15m' |
| AuthController.StoreAndReply | backend/src/controllers/authController.js:66-89 | for given tokens: the account's set gains exactly the refresh token, stamped now; both cookies are set; the reply is 200 with the account as read, the access token and '15m' |
| AuthController.Login | backend/src/controllers/authController.js:17-91 | missing email or password is 400 before any look-up; otherwise as above for the email in stored form |
| AuthController.Logout | backend/src/controllers/authController.js:98-113 | the presented refresh token is removed from the account when a cookie and an account are present, both cookies are cleared, the reply is 200 |
| AuthController.LogoutAsWritten | backend/src/controllers/authController.js:98-113 | with a cookie and an attached account the handler throws: 500, no cookie cleared; otherwise 200 with both cookies cleared |
| AuthController.LogoutScenario | backend/src/controllers/authController.js:98-113 | after a real login through the strict gate, logout as written answers 500 and keeps the token; as intended it answers 200 and the token is gone |
| AuthController.RefreshCheck | backend/src/controllers/authController.js:120-140 | no cookie is NO_REFRESH_TOKEN; a verification failure is a status-less error with the refresh message; a verified token whose account is missing or does not hold it is INVALID_REFRESH_TOKEN, then an inactive or locked account ACCOUNT_INACTIVE; a pass names the verified id |
| AuthController.RefreshVerifyFailureIs500 | backend/src/controllers/authController.js:127-128 | a refresh token that does not verify ends in 500, not 401 |
| AuthController.Rotate | backend/src/controllers/authController.js:151-153 | the last entry is the new token stamped now; the other entries are exactly the old ones not holding the presented value; at most one entry longer than before |
| AuthController.RotationMembership | backend/src/controllers/authController.js:133-153 | after rotation the new value passes the membership test, the old one fails it unless equal to the new, and other values are unaffected |
| AuthController.SameSecondRotationKeepsToken | backend/src/controllers/authController.js:143-153 | a refresh in the second the presented token was issued mints the same string, which stays valid |
| AuthController.RotateStored | backend/src/controllers/authController.js:151-153 | the two writes leave the token set as removal of the old value followed by the new entry |
| AuthController.IssueRotated | backend/src/controllers/authController.js:142-168 | the account's set is rotated, both cookies are set, the reply is 200 with the new access token |
| AuthController.RotateAndReply | backend/src/controllers/authController.js:152-168 | for given tokens: the presented entry is replaced by the new one, both cookies are set, the reply is 200 with the access token |
| AuthController.RefreshToken | backend/src/controllers/authController.js:120-169 | any failed check answers its error and writes nothing; a pass rotates the token, sets both cookies and answers 200 |
| AuthController.VerifyToken | backend/src/controllers/authController.js:176-189 | echoes the attached account with 200; without one the property read throws and the reply is 500 |
| AuthController.GetProfile | backend/src/controllers/authController.js:196-209 | the same, with the creation time |
| SetupController.InitialAdmin | backend/src/controllers/setupController.js:19-29 | an active super admin with email admin@portfolio.com, never locked, no refresh tokens, no last login, whose stored value is the bcrypt hash of 'admin123456' and accepts exactly that password |
| SetupController.InitialAdminCanLogIn | backend/src/controllers/setupController.js:20-29 | the initial account accepts its published password and refuses every other as a wrong password |
| SetupController.CreateInitialAdmin | backend/src/controllers/setupController.js:11-45 | with any account stored, 400 and nothing written; with none, exactly the initial account is stored and the reply is 201 with the credentials |
| SetupController.SetupStatus | backend/src/controllers/setupController.js:52-61 | `setupNeeded` iff the count is 0, and the count itself |
| SetupController.CheckSetupStatus | backend/src/controllers/setupController.js:52-61 | 200 with the status of the stored count |
| SetupController.SetupTwiceScenario | backend/src/controllers/setupController.js:11-61 | two setups on an empty store: 201 then 400, one account, setup no longer needed |
| MessageModel.KeywordHits | backend/src/models/Message.js:166-174 | no more hits than keywords |
| MessageModel.ScoreText | backend/src/models/Message.js:164-184 | the hook's loop over the seven keywords, then the link and capitals rules, computes the raw score |
| MessageModel.CapsRuleNeverFires | backend/src/models/Message.js:180-182 | the capitals rule adds nothing, because the text it counts in is lower-cased |
| MessageModel.SpamVerdict | backend/src/models/Message.js:164-185 | spam iff four keywords, or two keywords and more than three links; the raw score is 20 per keyword plus 30 for links and at most 170 |
| MessageModel.AutoCategory | backend/src/models/Message.js:187-199 | a category changed in this save and other than 'General' is kept; otherwise the result is one of the four groups or the old category; a schema category stays a schema category |
| MessageModel.CategoryPrecedence | backend/src/models/Message.js:188-199 | job words win, then freelance, partnership and speaking words in that order; no group word keeps the category |
| MessageModel.AutoCategoryIdempotent | backend/src/models/Message.js:188-199 | categorising an auto-categorised text again changes nothing |
| MessageModel.Saved | backend/src/models/Message.js:163-202 | the stored score is the raw score clamped to 100, `isSpam` iff the raw score exceeds 60, the category is the rule's, nothing else changes |
| MessageModel.SavedIdempotent | backend/src/models/Message.js:163-202 | saving a processed record again changes nothing |
| MessageModel.SavedKeepsEnums | backend/src/models/Message.js:163-202 | the hook never takes a category, priority or status that lies in the schema's lists out of them; priority and status are untouched |
| MessageModel.ReadAssigned | backend/src/models/Message.js:205-210 | the assignments of `markAsRead` leave the enumerations valid exactly when the loaded document had them valid |
| MessageModel.ReplyAssigned | backend/src/models/Message.js:214-222 | after the assignments of `addReply` the status is Replied, so the enumerations are valid iff category and priority were |
| MessageModel.MarkedRead | backend/src/models/Message.js:205-212 | for a save that validates: Unread becomes Read with `readAt` now; other statuses and `readAt` stay; `readCount` rises by one |
| MessageModel.Replied | backend/src/models/Message.js:214-224 | for a save that validates: one reply appended, status Replied, `lastRepliedAt` now |
| MessageModel.StarToggled | backend/src/models/Message.js:226-229 | the star is negated; otherwise the record is as one save leaves it |
| MessageModel.FlagToggled | backend/src/models/Message.js:231-234 | the flag is negated; otherwise the record is as one save leaves it |
| MessageModel.Noted | backend/src/models/Message.js:236-242 | one note appended, status and replies unchanged |
| MessageModel.StarTwiceRestores | backend/src/models/Message.js:226-229 | two star toggles restore a saved record |
| MessageModel.FlagTwiceRestores | backend/src/models/Message.js:231-234 | two flag toggles restore a saved record |
| MessageModel.SaveOverridesCategory | backend/src/models/Message.js:187-199 | a category set earlier by hand ('Business') is replaced by 'Job Offer' at the next save, here the star toggle's, when the text holds 'job' |
| MessageModel.EmailScanMatchesPattern | backend/src/models/Message.js:15-20 | the address scan accepts exactly the strings `^\S+@\S+\.\S+$` matches |
| MessageModel.CheckText | backend/src/models/Message.js:4-34 | a field passes iff present, non-empty and within its length bounds; a missing or empty one is reported as required |
| MessageModel.CheckEmail | backend/src/models/Message.js:10-21 | the address passes iff present, non-empty and of the pattern's shape |
| MessageModel.ValidateSubmission | backend/src/models/Message.js:3-34 | refused iff some field fails after its setter (name up to 100, address pattern, subject up to 200, message 10 to 2000); accepted fields are stored trimmed, the address also lower-cased |
| MessageModel.Created | backend/src/models/Message.js:48-153 | a new message holds the fields, the schema defaults (Unread, Medium, no star, flag, reply or note) and consistent spam fields |
| MessageModel.NewMessage | backend/src/models/Message.js:3-202 | a created message has consistent spam fields and the creation time; a refusal lists at least one error |
| MessageModel.NewMessageAccepts | backend/src/models/Message.js:3-34 | a submission is accepted exactly when every bound holds after the setters, and the message then holds the normalised fields and the defaults |
| MessageModel.Message.PreSave | backend/src/models/Message.js:164-202 | the document becomes `Saved` of itself |
| MessageModel.Message.Save | backend/src/models/Message.js:48-65 | `save()` goes through iff category, priority and status lie in the schema's lists; then the document becomes `Saved` of itself, otherwise it is left as it was |
| MessageModel.Message.MarkAsRead | backend/src/models/Message.js:205-212 | saved iff the loaded enumerations are valid; then the document becomes `MarkedRead` of itself, otherwise it keeps the unsaved assignments |
| MessageModel.Message.AddReply | backend/src/models/Message.js:214-224 | saved iff the loaded category and priority are in the schema; then the document becomes `Replied` of itself, otherwise it keeps the unsaved assignments |
| MessageModel.Message.ToggleStar | backend/src/models/Message.js:226-229 | saved iff the loaded enumerations are valid; then the document becomes `StarToggled` of itself, otherwise only the star is negated |
| MessageModel.Message.ToggleFlag | backend/src/models/Message.js:231-234 | saved iff the loaded enumerations are valid; then the document becomes `FlagToggled` of itself, otherwise only the flag is negated |
| MessageModel.Message.AddNote | backend/src/models/Message.js:236-242 | saved iff the loaded enumerations are valid; then the document becomes `Noted` of itself, otherwise only the note is appended |
| MessageController.MessageStore.Load | backend/src/controllers/messageController.js:119-123 | no document iff the id is unknown; otherwise a fresh document equal to the stored record |
| MessageController.MessageStore.Remove | backend/src/controllers/messageController.js:253 | exactly that id is removed |
| MessageController.MessageStore.UpdateMany | backend/src/controllers/messageController.js:292-295 | the collection becomes `BulkApplied` of itself |
| MessageController.GetMessage | backend/src/controllers/messageController.js:118-133 | unknown id is 404 with nothing written; an Unread message is marked read and stored, but when its save is refused (category or priority outside the schema) the reply is 500 and nothing is written; a message not Unread is returned without a save |
| MessageController.StatusAssigned | backend/src/controllers/messageController.js:151-154 | with a status among the five, the assignments leave the enumerations valid iff category and priority were |
| MessageController.StatusSet | backend/src/controllers/messageController.js:151-156 | the status is set; an existing `readAt` is never overwritten; an empty one is set to now iff the status is Read |
| MessageController.AssignStatus | backend/src/controllers/messageController.js:151-156 | saved iff the assigned document passes the schema's lists; then it becomes `StatusSet` of itself |
| MessageController.UpdateMessageStatus | backend/src/controllers/messageController.js:138-161 | a status outside the five is 400 before the look-up; unknown id is 404; a save refused by the schema (a category, priority or status outside its list, as a bulk update can leave) is 500 with nothing written; otherwise the stored record is `StatusSet` and returned |
| MessageController.ReplyToMessage | backend/src/controllers/messageController.js:166-184 | a missing subject or text is 400 before the look-up; unknown id is 404; a save refused by the schema (a category, priority or status outside its list, as a bulk update can leave) is 500 with nothing written; otherwise one reply is stored, the sender defaulting to 'Jeevan Dangi' |
| MessageController.ToggleStar | backend/src/controllers/messageController.js:189-201 | unknown id is 404 with nothing written; a save refused by the schema (a category, priority or status outside its list, as a bulk update can leave) is 500 with nothing written; otherwise the star is toggled and the reply names the new state |
| MessageController.ToggleFlag | backend/src/controllers/messageController.js:206-218 | the same for the flag |
| MessageController.AddNote | backend/src/controllers/messageController.js:223-241 | a missing note is 400 before the look-up; unknown id is 404; a save refused by the schema (a category, priority or status outside its list, as a bulk update can leave) is 500 with nothing written; otherwise one note is stored |
| MessageController.DeleteMessage | backend/src/controllers/messageController.js:246-258 | unknown id is 404 with nothing removed; otherwise exactly that message is removed |
| MessageController.CreateMessage | backend/src/controllers/messageController.js:9-39 | a refused submission writes nothing and ends in 500; an accepted one is stored under the new id and answered 201 with name, email, subject and time |
| MessageController.ReplyCreated | backend/src/controllers/messageController.js:30-38 | 201 with the receipt of the created message, or 500 |
| MessageController.StoreNew | backend/src/controllers/messageController.js:17-28 | the new message is stored exactly when it validates |
| MessageController.CastBoolean | backend/src/controllers/messageController.js:276-281 | booleans pass; the strings true/1/yes and false/0/no cast; anything else is a cast error |
| MessageController.BulkAction | backend/src/controllers/messageController.js:272-290 | an unknown action is refused with 'Invalid action'; each known action maps to exactly one field |
| MessageController.ApplyUpdate | backend/src/controllers/messageController.js:292-295 | exactly the named field changes; text and spam fields stay |
| MessageController.BulkApplied | backend/src/controllers/messageController.js:292-295 | listed, existing ids are updated; nothing else changes and no id is added |
| MessageController.BulkUpdateMessages | backend/src/controllers/messageController.js:263-300 | a missing or empty id list is 400; a refused action writes nothing; otherwise the listed messages are updated and the reply is 200 |
| MessageController.UnknownActionRefused | backend/src/controllers/messageController.js:288-289 | an unknown action is a 400 |
| MessageController.BulkBypassesStatusEnum | backend/src/controllers/messageController.js:272-275 | a bulk update can store a status outside the five, which the single-message handler never does |
| MessageController.BulkUpdateEnums | backend/src/controllers/messageController.js:292-295 | from a message whose enumerations are valid, a bulk update keeps them valid iff its value lies in the field's list |
| MessageController.BulkCategoryThenStar | backend/src/controllers/messageController.js:189-201 | a bulk category outside the schema is stored, and a later star toggle on that message is refused with 500 and writes nothing |
| MessageController.Listed | backend/src/controllers/messageController.js:58-64 | a listed message is never spam |
| MessageController.Matching | backend/src/controllers/messageController.js:78-83 | a message is in the result iff it is in the collection and passes the filter; the result is no longer than the collection |
| MessageController.PageCount | backend/src/controllers/messageController.js:108 | the least page count covering the total; a zero limit has none |
| MessageController.PageOf | backend/src/controllers/messageController.js:78-81 | page 0 with a positive limit is an error; a page holds at most `limit` items, the matches from `(page-1)*limit` on |
| MessageController.EveryMatchOnItsPage | backend/src/controllers/messageController.js:78-109 | every match appears on page `i / limit + 1`, at offset `i % limit`, and that page is within the page count |
| MessageController.PageWithinCount | backend/src/controllers/messageController.js:78-109 | the page an index falls on is within the page count the list reports |
| MessageController.GetAdminMessages | backend/src/controllers/messageController.js:44-113 | over the whole collection, each message once: 200 with the requested page of the non-spam matches, their total, which is the number of stored messages the query shows, and the page count; page 0 with a positive limit ends in 500 |
| MessageController.MatchCountIsCollectionCount | backend/src/controllers/messageController.js:77-82 | when the ids list every stored message once, the matches `find` pages through are exactly as many as `countDocuments` counts for the same query |
| MessageController.Ordered | backend/src/controllers/messageController.js:78-79 | the documents in the requested order |
| BlogModel.BlogSlug | backend/src/models/Blog.js:130-137 | the generated slug holds only `[a-z0-9-]` and no "--" |
| BlogModel.SlugChain | backend/src/models/Blog.js:131-135 | the chain before `trim` already holds only `[a-z0-9-]` and no "--" |
| BlogModel.BlogSlugIdempotent | backend/src/models/Blog.js:130-137 | a string of slug characters without "--" is its own slug |
| BlogModel.EdgeHyphensSurvive | backend/src/models/Blog.js:136 | a title '-word-' keeps both edge hyphens, so '-hello-' gives '-hello-' |
| BlogModel.GeneratedSlugStoredAsIs | backend/src/models/Blog.js:10-17 | the slug path's `lowercase` and `trim` setters leave a generated slug unchanged |
| BlogModel.ReadTime | backend/src/models/Blog.js:145-148 | at least one minute, and the least number of minutes covering the pieces at 200 per minute |
| BlogModel.OnePieceIffNoSpace | backend/src/models/Blog.js:144-148 | content is one piece iff it holds no white space |
| BlogModel.MetaPrefix | backend/src/models/Blog.js:150-156 | at most `n` characters, a prefix of the source when it does not start with white space |
| BlogModel.SlugStep | backend/src/models/Blog.js:130-137 | an empty slug with a title is generated, otherwise the record is kept |
| BlogModel.PublishStep | backend/src/models/Blog.js:139-142 | a published post always has a date; an existing date is kept |
| BlogModel.ReadTimeStep | backend/src/models/Blog.js:144-148 | non-empty content sets the read time, at least 1 |
| BlogModel.MetaStep | backend/src/models/Blog.js:150-156 | empty meta fields are cut from title (60) and excerpt (160); set ones are kept |
| BlogModel.BlogSaved | backend/src/models/Blog.js:129-159 | the four steps: slug, first publication date, read time, meta fields; a set slug and set meta fields are kept, the read time is kept without content; no other field changes |
| BlogModel.MetaTitleIsPrefix | backend/src/models/Blog.js:151-153 | a generated meta title is a prefix of the title of at most 60 characters |
| BlogModel.MetaDescriptionIsPrefix | backend/src/models/Blog.js:154-156 | a generated meta description is a prefix of the excerpt of at most 160 characters |
| BlogModel.PublishToggled | backend/src/models/Blog.js:193-199 | the flag is negated; an existing date is kept; a first publication is dated now; counters unchanged |
| BlogModel.PublishTwice | backend/src/models/Blog.js:193-199 | two toggles restore the flag and keep the first publication date; unpublishing never clears it |
| BlogModel.ViewCounted | backend/src/models/Blog.js:182-186 | views and total views rise by one, likes unchanged |
| BlogModel.LikeCounted | backend/src/models/Blog.js:188-191 | likes rise by one, views unchanged |
| BlogModel.Assigned | backend/src/models/Blog.js:3-108 | a new post starts unfeatured, with no publication date and zero views, likes and total views; the read time is the given one or 5, the category the given one or 'Web Development'; the publish flag is the given one |
| BlogModel.ValidationErrors | backend/src/models/Blog.js:3-89 | no errors iff title 1..200, slug matching `^[a-z0-9-]+$`, excerpt 1..500, content present, category in the eight, read time at least 1, meta title at most 60 and meta description at most 160; an empty slug and an over-long meta field are always reported |
| BlogModel.SavedStaysValid | backend/src/models/Blog.js:129-159 | the hook keeps a valid post valid, so a validated post can be saved again |
| BlogModel.LongMetaTitleRefused | backend/src/models/Blog.js:80-84 | a caller's meta title over 60 characters after trimming is refused on either creation path |
| BlogModel.NewBlogAsWritten | backend/src/models/Blog.js:10-17 | creation validates first, so it fails iff the assigned document has errors, before the hook can generate a slug |
| BlogModel.SluglessBlogRefused | backend/src/models/Blog.js:10-17 | as written, a post created without a slug is always refused with a slug error |
| BlogModel.HookSlugBranchDead | backend/src/models/Blog.js:129-137 | on a validated document the hook's slug branch never changes the slug |
| BlogModel.WithGeneratedSlug | backend/src/models/Blog.js:130-137 | an empty slug is generated from the title; nothing else changes |
| BlogModel.NewBlog | backend/src/models/Blog.js:129-137 | creation with the slug generated before validation, then the hook |
| BlogModel.SlugGeneratedOnCreate | backend/src/models/Blog.js:129-137 | a post without a slug, whose other fields are valid (meta fields within bounds, read time at least 1) and whose title yields a slug, is created with the title's slug |
| BlogModel.Blog.Url | backend/src/models/Blog.js:124-126 | the URL is "/blog/" followed by the slug |
| BlogModel.Blog.PreSave | backend/src/models/Blog.js:129-159 | the document becomes `BlogSaved` of itself |
| BlogModel.Blog.GenerateSlug | backend/src/models/Blog.js:130-137 | the document becomes `SlugStep` of itself |
| BlogModel.Blog.StampPublished | backend/src/models/Blog.js:139-142 | the document becomes `PublishStep` of itself |
| BlogModel.Blog.ComputeReadTime | backend/src/models/Blog.js:144-148 | the document becomes `ReadTimeStep` of itself |
| BlogModel.Blog.FillMeta | backend/src/models/Blog.js:150-156 | the document becomes `MetaStep` of itself |
| BlogModel.Blog.TogglePublish | backend/src/models/Blog.js:193-199 | the document becomes `PublishToggled` of itself |
| BlogModel.Blog.IncrementViews | backend/src/models/Blog.js:182-186 | the document becomes `ViewCounted` of itself |
| BlogModel.Blog.IncrementLikes | backend/src/models/Blog.js:188-191 | the document becomes `LikeCounted` of itself |
| ProjectModel.StripEdgeHyphens | backend/src/models/Project.js:171 | one leading and then one trailing hyphen go; the rest is kept in place |
| ProjectModel.ProjectSlugChain | backend/src/models/Project.js:169-171 | the result holds only `[a-z0-9-]`, no "--", and no hyphen at either end |
| ProjectModel.ProjectSlug | backend/src/models/Project.js:167-172 | the derived slug is clean in that sense |
| ProjectModel.ProjectSlugIdempotent | backend/src/models/Project.js:168-171 | a clean slug is its own slug |
| ProjectModel.ProjectSlugTwice | backend/src/models/Project.js:168-171 | deriving twice gives the slug once |
| ProjectModel.DerivedSlugStoredAsIs | backend/src/models/Project.js:9-14 | the slug path's `lowercase` setter leaves a derived slug unchanged |
| ProjectModel.NoAlnumTitleSlug | backend/src/models/Project.js:167-172 | a title with no letter or digit once lower-cased, such as "-", yields the empty slug |
| ProjectModel.GithubUrlIsLiveUrl | backend/src/models/Project.js:45-62 | every URL the GitHub validator accepts the live-URL validator accepts, but not conversely |
| ProjectModel.ValidationErrors | backend/src/models/Project.js:3-62 | no errors iff title and description present, short description at most 200, both URLs valid |
| ProjectModel.SlugStep | backend/src/models/Project.js:167-172 | a new or retitled document with a title takes the title's slug; otherwise the record is kept |
| ProjectModel.ShortDescriptionStep | backend/src/models/Project.js:175-177 | a missing short description becomes the first 150 characters of the description plus "..." |
| ProjectModel.SeoStep | backend/src/models/Project.js:180-185 | a missing SEO title is the title plus " - Jeevan Dangi Portfolio"; a missing SEO description is the short description, or the first 160 characters of the description |
| ProjectModel.ProjectSaved | backend/src/models/Project.js:166-188 | the three steps in order; no other field changes |
| ProjectModel.SaveIdempotent | backend/src/models/Project.js:166-188 | saving a saved, unmodified document again changes nothing |
| ProjectModel.SaveKeepsValid | backend/src/models/Project.js:175-177 | the hook keeps a valid document valid: a generated short description fits in 200 |
| ProjectModel.ViewCounted | backend/src/models/Project.js:191-194 | views rise by one; likes, clicks, title and description unchanged |
| ProjectModel.LikeCounted | backend/src/models/Project.js:196-199 | likes rise by one; views, clicks, title and description unchanged |
| ProjectModel.ClickAdded | backend/src/models/Project.js:201-204 | exactly the named counter rises by one |
| ProjectModel.ClickCounted | backend/src/models/Project.js:201-207 | a known kind raises its counter; any other kind leaves the record as it is |
| ProjectModel.CountersTouchOnlyTheirField | backend/src/models/Project.js:191-207 | on a saved document each counter method changes only its own field |
| ProjectModel.Project.PreSave | backend/src/models/Project.js:166-188 | the document becomes `ProjectSaved` of itself |
| ProjectModel.Project.GenerateSlug | backend/src/models/Project.js:167-172 | the document becomes `SlugStep` of itself |
| ProjectModel.Project.FillShortDescription | backend/src/models/Project.js:175-177 | the document becomes `ShortDescriptionStep` of itself |
| ProjectModel.Project.FillSeo | backend/src/models/Project.js:180-185 | the document becomes `SeoStep` of itself |
| ProjectModel.Project.IncrementViews | backend/src/models/Project.js:191-194 | the document becomes `ViewCounted` of itself |
| ProjectModel.Project.IncrementLikes | backend/src/models/Project.js:196-199 | the document becomes `LikeCounted` of itself |
| ProjectModel.Project.IncrementClick | backend/src/models/Project.js:201-207 | saved iff the kind is github, live or demo; the document becomes `ClickCounted` of itself |

`AuthController.LoggedInRequest` and `AuthController.OneAccountStore` are scenario scaffolding: they build the starting state of `AuthController.LogoutScenario` (one account with one refresh token, and a request that has passed the strict gate) and model no source function, so they have no row.

## Left out

- bcrypt salting and digests, HMAC signatures, base64url and JSON: a hash is an ideal one-way value, a signature is the signing key, and the token wire form is a length-prefixed encoding.
- `generateSecureToken` (random bytes): randomness is outside the model.
- AdminModel.RemoveToken: states which entries remain, not that they keep their order; the filter that computes it keeps the order (`AdminModel.FilterAppend`).
- Environment configuration: the secret is a parameter; `JWT_EXPIRE`/`JWT_REFRESH_EXPIRE` are their defaults '15m' and '7d'; `isProduction` is a parameter.
- The Mongo TTL index on refresh-token entries and wall-clock time: `now` is a parameter and only `cleanExpiredTokens` purges.
- Concurrency: the remove-then-add rotation, the read-then-update lock decision and the process-wide rate-limit map are modelled as sequential steps.
- `ApiError.js`, `ApiResponse.js` and `asyncHandler.js` are not part of this model: a thrown error is a status and a message, a reply body a data value and a message.
- The error `code` of an `ApiError` is not in the modelled reply body, because the global handler writes only `success` and `message`.
- String lengths count characters, not UTF-16 code units. `toLowerCase` maps ASCII letters and the two non-ASCII characters that lower to ASCII letters; all other characters are kept.
- Mongoose's exact error wording for validation and cast failures: `CreateMessage` and the bulk casts answer with a fixed message and no status, hence 500.
- Schema fields the modelled rules never read are omitted:
  - Message: phone, company, website, tags, follow-up, request metadata, source.
  - Blog: tags, featured image, analytics other than total views.
  - Project: images, technologies, category, status, priority, dates, team and story fields, keywords, flags.
  - The validators of omitted fields are omitted with them (image required, category enum, priority 0 to 10).
- Static queries and aggregations are omitted: `getUnread`, `getByStatus`, `getByCategory`, `getStarred`, `getFlagged`, `getSpam`, `search`, `getPublished`, `getFeatured`, `searchBlogs` and the message analytics.
- MessageController.GetAdminMessages: does not model the sort, the regex search, the per-status counts or `parseInt` of the query strings. The sort order of the documents is a parameter, an ordering of the whole collection with each id once, and page and limit are numbers.
- MessageController.BulkUpdateMessages: values other than strings and booleans (numbers, objects) are not modelled, and ids are not checked as ObjectIds.
- A malformed id (a failing ObjectId cast) is not modelled; ids are numbers.
- MessageModel.Message.Save: checks only the three enumerations. The text bounds are checked when a message is created, and no modelled write changes those fields.
- BlogModel.Blog and ProjectModel.Project: their instance methods do not model a refused save. The modelled documents come from validated creation, and the hooks keep them valid (`BlogModel.SavedStaysValid`, `ProjectModel.SaveKeepsValid`). Updates in controllers outside this model that could store an invalid document are not covered.
- BlogModel.Assigned: a caller-supplied `views`, `likes`, `isFeatured` or `publishedAt` is not carried, so these start at their defaults. The read time is a natural number, so negative or fractional values are not modelled.
- ProjectModel.Project.IncrementClick: kinds that name inherited object properties (such as "toString") are treated like unknown kinds. The returned Promise is reduced to whether the document was saved.
- The unique indexes on blog and project slugs are not modelled; the account email index is (`AdminModel.UniqueEmails`).
- Mongoose casting of non-string inputs to string fields is not modelled: every text field is a string or absent.

## Findings

| source | as written | input that shows it | evidently intended | confidence | as-written member | corrected member |
|---|---|---|---|---|---|---|
| backend/src/controllers/authController.js:102-103 | `req.admin` is the account the strict gate loaded with `select('-password -refreshTokens')`, so `removeRefreshToken` filters an array that was not loaded and throws; the reply is 500, no cookie is cleared and the refresh token stays stored | an administrator logged in through the strict gate posts to `/api/auth/logout` with its `adminRefreshToken` cookie | logout removes the presented refresh token, clears both cookies and answers 200 | medium (depends on Mongoose leaving a projected-out array undefined); not executed | AuthController.LogoutAsWritten, AuthController.LogoutScenario | AuthController.Logout |
| backend/src/models/Blog.js:10-17 | the slug path is `required`, and Mongoose validates before pre-save hooks run, so a post created without a slug is refused; the hook's slug generation at lines 129-137 can never run on a document that passed validation | `Blog.create` (backend/src/controllers/blogController.js:279-280) with a title, excerpt, content and no slug | a missing slug is generated from the title and the post is created | medium; not executed | BlogModel.NewBlogAsWritten, BlogModel.SluglessBlogRefused, BlogModel.HookSlugBranchDead | BlogModel.NewBlog, BlogModel.SlugGeneratedOnCreate |
