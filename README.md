# quash-sampler core in Dafny

This project models the quash-sampler demo backend and the client's screen logic.

The backend parts modelled are:
- the OTP login flow: code issue, the session store with expiry and attempt limits, and the `/auth/login` and `/auth/verify-otp` handlers with their phone and email checks;
- the token authority: master token, active set, revocation and the expiry sweep;
- the bearer-token gates `authenticate` and `optionalAuth`;
- the request validators for bug reports and comments;
- the User, BugReport and Comment records: completion score, save hooks, bug ids, reactions;
- the user service: find-or-create over a user map, profile update, missing fields;
- the arithmetic of the scenario endpoints: delay clamp, `/orders`, mock data, offset, cursor and Link-header pagination, nested objects, and the `If-None-Match` branch.

On the client side, the Login, OTP, Onboarding, Bug-report and Scenario view-models are modelled as state machines.

Structure:
- Each source file is one module.
- State that the source changes in place is a class with `modifies` clauses. This covers the OTP store, the active token set, the Express request, the Mongoose documents, the user directory and each view-model's UI state.
- Each class method's `ensures` ties its new state to pure specification functions. The promised properties are proved about those functions as lemmas.
- External inputs are parameters: the clock (milliseconds), random draws, generated ids, JWT `sign`/`verify`, and what a database query found.

Shared helper modules:
- `Wrappers`: Option and Result.
- `Strings`: JavaScript and Kotlin white space, trim, blank, split and join.
- `JsNumbers`: decimal rendering, `parseInt` (including its `0x` prefix), `padStart`, floor and ceiling division, and `slice` with negative ends.
- `Sequences`: removing the first occurrence of an element.
- `ClientModels`: the client's user record and the outcome of a remote call.

## Behaviour worth knowing

- `verifyOTP` (quash-sampler-backend/src/otpService.js:40-74) does not look up or create a user. It returns a "Test User" made up from the identifier (`OtpService.FabricatedUser`). `findOrCreateUser` is described in its own comment as the lookup done during OTP verification (quash-sampler-backend/src/services/userService.js:4), but no route calls it.
- `/auth/verify-otp` builds its own `token_<time>_<random>` string, marked in its comment as a stand-in for a JWT (quash-sampler-backend/src/routes.js:79-80). That string is never in the token service's active set (`AuthRoutes.RouteToken`).
- The master token is always on, with a built-in default when the environment does not set one (quash-sampler-backend/src/tokenService.js:8, `TokenService.MasterToken`).
- The revocation check runs only after the JWT check succeeds. A revoked token that has since expired is reported as expired, not as revoked (`TokenService.RevokedTokenRefused`).
- `checkProfileCompletion` assigns the contact string, not a boolean, to the Boolean `isProfileComplete` path. Mongoose casts only "true", "1", "yes", "false", "0" and "no"; any other string is not stored. So a new user created from an identifier keeps the flag false unless the identifier is one of those strings (`UserService.NewUserFlag`), and a complete profile with an ordinary contact keeps whatever flag it had (`UserModel.FlagAfterMeaning`).
- The unique sparse indexes on email and phone skip only missing fields, not explicit nulls. A new user is created with the other contact null, so a second user created from an e-mail address (or from a phone) meets the first one's null and fails with a duplicate key error (`UserService.NewUserCollides`).

## Model

| member | source | states |
|---|---|---|
| OtpService.GenerateOtp | quash-sampler-backend/src/otpService.js:5-14 | always six digits; in demo mode always "232423", otherwise 100000 + the random draw, so within [100000, 999999] |
| OtpService.FabricatedUser | quash-sampler-backend/src/otpService.js:62-69 | the user returned on success is "Test User" with id "user_" + time; email is set iff the identifier contains '@', phone otherwise, each to the identifier |
| OtpService.MessagesDistinct | quash-sampler-backend/src/otpService.js:43-73 | two outcomes with the same message are the same failure kind, or both successes |
| OtpService.VerifyStep | quash-sampler-backend/src/otpService.js:40-74 | unknown session, then expiry (now > expiryTime; equal is still usable), then attempts >= 3, then count the attempt and compare; expired or exhausted sessions are deleted, a match deletes the session, a wrong code leaves it with one more attempt; no other session is read or changed |
| OtpService.VerifyKeepsAttemptsBounded | quash-sampler-backend/src/otpService.js:52-57 | a verification keeps every stored session at 3 attempts or fewer |
| OtpService.ReplayWithoutSession | quash-sampler-backend/src/otpService.js:43-45 | once a session id is gone, every later call fails as an invalid session and compares no code |
| OtpService.SucceedsAtMostOnce | quash-sampler-backend/src/otpService.js:59-71 | whatever codes arrive and whenever, a session id succeeds at most once |
| OtpService.NothingAfterSuccess | quash-sampler-backend/src/otpService.js:59-71 | after a success every later call on that id fails with "Invalid or expired session" |
| OtpService.ComparesWithinBudget | quash-sampler-backend/src/otpService.js:52-73 | over any series of calls at most the remaining budget of codes is compared, never more than 3 |
| OtpService.WrongThenRightThenReplay | quash-sampler-backend/src/otpService.js:40-74 | example run: a wrong code, then the right code verifies with the phone as the user's contact, then a replay finds no session |
| OtpService.ThreeWrongCodesLock | quash-sampler-backend/src/otpService.js:52-57 | after three wrong codes on a fresh session, the fourth call cannot succeed |
| OtpService.OtpStore.StoreOtp | quash-sampler-backend/src/otpService.js:22-37 | stores the session with attempts 0 and expiry now + 300000 ms and returns the given id |
| OtpService.OtpStore.VerifyOtp | quash-sampler-backend/src/otpService.js:40-74 | outcome and new store are exactly those of VerifyStep on the old store |
| AuthRoutes.StripSpaces | quash-sampler-backend/src/routes.js:7-10 | the result holds no white space, and a string without white space is unchanged |
| AuthRoutes.ParsePhoneSound | quash-sampler-backend/src/routes.js:7-10 | everything the phone check accepts is optional '+', optional '(', 3 digits, optional ')', optional '-' or '.', 3 digits, optional '-' or '.', 4 to 6 digits, spelled exactly as in the input |
| AuthRoutes.ParsePhoneComplete | quash-sampler-backend/src/routes.js:7-10 | every number of that shape is accepted and read back into the same pieces |
| AuthRoutes.EmailFromParts | quash-sampler-backend/src/routes.js:13-16 | any non-empty local part, host and suffix free of white space and '@' form a valid address |
| AuthRoutes.EmailIntoParts | quash-sampler-backend/src/routes.js:13-16 | every address the pattern accepts splits into a local part, '@', a host, '.' and a suffix as the pattern requires |
| AuthRoutes.EmailHasOneAt | quash-sampler-backend/src/routes.js:13-16 | a valid address contains exactly one '@' |
| AuthRoutes.CheckIdentifier | quash-sampler-backend/src/routes.js:22-40 | a missing or blank identifier is "Phone number or email is required"; otherwise it is accepted iff the trimmed value is a phone or an email, and the trimmed value is kept |
| AuthRoutes.Login | quash-sampler-backend/src/routes.js:19-64 | a refused identifier answers 400 and creates no session; an accepted one stores exactly one new session for the trimmed identifier and echoes its id and code |
| AuthRoutes.RouteToken | quash-sampler-backend/src/routes.js:81 | the token handed out starts with "token_" |
| AuthRoutes.VerifyOtpRoute | quash-sampler-backend/src/routes.js:67-92 | a missing session id or code answers 400 without touching the store; otherwise the store changes as VerifyStep says, a failure answers 401 with its message, a success answers with a "token_" token and the user |
| TokenService.MasterToken | quash-sampler-backend/src/tokenService.js:4-8 | the environment's master token when set and non-empty, the built-in one otherwise; never empty |
| TokenService.PayloadFor | quash-sampler-backend/src/tokenService.js:14-30 | the claims carry the user id and name, the email if present else the phone, and the issue time in whole seconds |
| TokenService.CheckToken | quash-sampler-backend/src/tokenService.js:33-70 | the master token is always valid as master_user; otherwise valid iff the JWT decodes and the token is active; decoded but inactive is "Token has been revoked", expiry and malformation are reported before any revocation check |
| TokenService.GeneratedTokenVerifies | quash-sampler-backend/src/tokenService.js:14-70 | a freshly generated token that still decodes verifies to the user id, identifier and name it was made for |
| TokenService.RevokedTokenRefused | quash-sampler-backend/src/tokenService.js:47-52 | after removal from the active set, a token that still decodes is refused as revoked; otherwise the verdict is unchanged |
| TokenService.LogoutTwice | quash-sampler-backend/src/tokenService.js:14-75 | example run: a generated token verifies; the first revocation removes it, the second finds nothing, and the token is refused as revoked |
| TokenService.SweepKeepsVerdicts | quash-sampler-backend/src/tokenService.js:78-96 | removing the expired tokens changes the verdict on no token |
| TokenService.TokenAuthority.constructor | quash-sampler-backend/src/tokenService.js:4-11 | the master token comes from the environment, and no token is active |
| TokenService.TokenAuthority.GenerateToken | quash-sampler-backend/src/tokenService.js:14-30 | returns the signed claims of PayloadFor and adds that token to the active set |
| TokenService.TokenAuthority.RevokeToken | quash-sampler-backend/src/tokenService.js:73-75 | returns true iff the token was active, and removes it |
| TokenService.TokenAuthority.SweepExpired | quash-sampler-backend/src/tokenService.js:78-96 | removes exactly the active tokens whose verification fails with an expiry error |
| AuthMiddleware.ParseBearerMeaning | quash-sampler-backend/src/authMiddleware.js:17-25 | splitting on ' ' into exactly "Bearer" and one more piece accepts exactly "Bearer " followed by a space-free token, and yields that token |
| AuthMiddleware.ParseBearerSound | quash-sampler-backend/src/authMiddleware.js:17-25 | an accepted header is "Bearer " followed by the returned token, which holds no space |
| AuthMiddleware.ParseBearerComplete | quash-sampler-backend/src/authMiddleware.js:17-25 | every header of that form is accepted |
| AuthMiddleware.LowerCaseSchemeRefused | quash-sampler-backend/src/authMiddleware.js:17-25 | "bearer x" is refused |
| AuthMiddleware.DoubleSpaceRefused | quash-sampler-backend/src/authMiddleware.js:17-25 | "Bearer  x" is refused |
| AuthMiddleware.ThirdPieceRefused | quash-sampler-backend/src/authMiddleware.js:17-25 | "Bearer a b" is refused |
| AuthMiddleware.Decide | quash-sampler-backend/src/authMiddleware.js:4-45 | no header, bad format, refused token (with the verifier's error) or accepted token, each exactly when its condition holds |
| AuthMiddleware.Authenticate | quash-sampler-backend/src/authMiddleware.js:4-45 | 401 NO_TOKEN, INVALID_AUTH_FORMAT or INVALID_TOKEN with the verifier's message; passes on iff the token is accepted, then with the user and the raw token recorded, and otherwise leaves the request alone |
| AuthMiddleware.OptionalAuth | quash-sampler-backend/src/authMiddleware.js:48-71 | always passes on; a missing header or a refused token sets a null user, a malformed header leaves the user as it was, an accepted token records the user and token |
| Validation.RequiredComplaint | quash-sampler-backend/src/middleware/validation.js:6-22 | a missing or blank field gets the required message; otherwise a length above the limit gets the length message, and the limit itself passes |
| Validation.OptionalComplaint | quash-sampler-backend/src/middleware/validation.js:25-49 | an optional field gets its complaint exactly when it fails its check |
| Validation.Complaint | quash-sampler-backend/src/middleware/validation.js:6-49 | each field's complaint is about that field |
| Validation.ComplaintsInOrder | quash-sampler-backend/src/middleware/validation.js:3-49 | complaints come in field order, at most one per field |
| Validation.ComplaintMembership | quash-sampler-backend/src/middleware/validation.js:6-49 | a complaint is in the list exactly when its own field calls for it |
| Validation.NoComplaintsIffAcceptable | quash-sampler-backend/src/middleware/validation.js:1-61 | the list is empty iff required fields are non-blank and within limits, priority and category are absent or in their lists, and the optional texts are within their raw-length limits |
| Validation.ValidateBugReport | quash-sampler-backend/src/middleware/validation.js:1-61 | builds exactly that list, one check per field in field order; calls next iff it is empty, otherwise 400 "Validation failed" with every message |
| Validation.ValidateComment | quash-sampler-backend/src/middleware/validation.js:63-89 | content is required and at most 1000 characters, type is absent or comment, status_update or solution; next iff no error |
| UserModel.WithDefaults | quash-sampler-backend/src/models/User.js:33-37 | a new user without a role gets "Reporter"; a given role is kept |
| UserModel.Points | quash-sampler-backend/src/models/User.js:51-77 | the completion points are at most 10 |
| UserModel.ProfileCompletionPercentage | quash-sampler-backend/src/models/User.js:51-77 | 10 times (3 for name, 3 for role, 2 for email or phone, 1 for address, 1 for date of birth), a multiple of 10 in [0, 100] |
| UserModel.ScoreAndCompleteness | quash-sampler-backend/src/models/User.js:51-91 | a complete profile scores at least 80, a full score means complete, an incomplete profile scores at most 80 |
| UserModel.EightyWithoutContact | quash-sampler-backend/src/models/User.js:51-91 | a profile with everything but a contact is incomplete yet scores 80 |
| UserModel.GetMissingFields | quash-sampler-backend/src/services/userService.js:87-98 | lists exactly the fields among name, email, phone, address, dateOfBirth and role that are falsy or white space only, in that order |
| UserModel.UserDocument.constructor | quash-sampler-backend/src/models/User.js:3-44 | schema defaults: role "Reporter", isProfileComplete false when not given |
| UserModel.UserDocument.CheckProfileCompletion | quash-sampler-backend/src/models/User.js:80-98 | returns the completion value, truthy exactly when name, role and an email or phone are present; the flag becomes that value as Mongoose casts it, and keeps its old value when it is strictly equal or the cast fails |
| UserModel.UserDocument.PreSave | quash-sampler-backend/src/models/User.js:101-111 | refuses a user without email and phone and leaves the flag; otherwise sets the flag as the check does |
| UserModel.CheckTwice | quash-sampler-backend/src/models/User.js:80-98 | a second check returns the same answer, truthy iff complete, and leaves the flag as the first check set it |
| UserModel.CompletionValue | quash-sampler-backend/src/models/User.js:80-91 | the value is truthy iff the profile is complete, and is false iff name or role is missing |
| UserModel.FlagAfterMeaning | quash-sampler-backend/src/models/User.js:80-98 | after a check the flag is false without name or role; for a complete profile true or false only when the contact is a castable string, otherwise unchanged; with name and role but no contact, unchanged for an empty phone and null otherwise |
| UserModel.FlagAfterIdempotent | quash-sampler-backend/src/models/User.js:92-95 | a second check leaves the flag as the first set it |
| UserService.NewUserData | quash-sampler-backend/src/services/userService.js:13-20 | named "New User", the identifier in email iff it contains '@' and in phone otherwise, the other null; the query finds it |
| UserService.NewUserFlag | quash-sampler-backend/src/services/userService.js:15-23 | a new user's saved flag is true exactly when its identifier is "true", "1" or "yes", and false for every e-mail address |
| UserService.NewUserCollides | quash-sampler-backend/src/services/userService.js:15-23 | a new user from an e-mail address collides with a stored user iff that user's phone is null, and one from a phone iff that user's email is null |
| UserService.ApplyUpdate | quash-sampler-backend/src/services/userService.js:48-54 | a profile update writes the fields it names and never the contacts |
| UserService.UserDirectory.FindOrCreateUser | quash-sampler-backend/src/services/userService.js:5-35 | a user the query finds is returned unchanged and nothing is created; otherwise an empty identifier is refused; a new user colliding with a stored one in a unique index gives the duplicate key error and changes nothing; any other creates one user with the new-user fields, default role and the flag the save hook leaves; no two users ever collide |
| UserService.UserDirectory.UpdateUserProfile | quash-sampler-backend/src/services/userService.js:48-65 | an update failing the schema validators is refused with "Validation failed" before the user is looked up, whatever the id; a valid update for an unknown id gives "User not found"; both change nothing; otherwise only that user's named fields change |
| UserService.FindTwice | quash-sampler-backend/src/services/userService.js:5-35 | example run: when the first call succeeds, a second call with the same identifier returns the same user and creates nothing |
| UserService.UserDirectory.CheckProfileCompletion | quash-sampler-backend/src/services/userService.js:68-84 | "User not found" for an unknown id; otherwise the stored flag, the percentage and exactly the missing fields in schema order |
| BugReportModel.LevelName | quash-sampler-backend/src/models/BugReport.js:37-42 | a severity or priority names one of Low, Medium, High, Critical |
| BugReportModel.ParseLevel | quash-sampler-backend/src/models/BugReport.js:37-42 | a string is accepted as a level iff it is in that list, and names the level it reads as |
| BugReportModel.LevelRoundTrip | quash-sampler-backend/src/models/BugReport.js:80-85 | reading a level's name gives the level back |
| BugReportModel.CategoryName | quash-sampler-backend/src/models/BugReport.js:43-48 | a category names one of the seven categories |
| BugReportModel.ParseCategory | quash-sampler-backend/src/models/BugReport.js:43-48 | accepted iff in the category list, naming what it reads as |
| BugReportModel.CategoryRoundTrip | quash-sampler-backend/src/models/BugReport.js:43-48 | reading a category's name gives it back |
| BugReportModel.StatusName | quash-sampler-backend/src/models/BugReport.js:49-53 | a status names one of the six statuses |
| BugReportModel.ParseStatus | quash-sampler-backend/src/models/BugReport.js:49-53 | accepted iff in the status list, naming what it reads as |
| BugReportModel.StatusRoundTrip | quash-sampler-backend/src/models/BugReport.js:49-53 | reading a status's name gives it back |
| BugReportModel.GenerateBugId | quash-sampler-backend/src/models/BugReport.js:133-144 | "BUG-001" when there is no report; fails iff the latest report has no id; otherwise an id beginning "BUG-" of at least seven characters |
| BugReportModel.BugIdNumberRoundTrip | quash-sampler-backend/src/models/BugReport.js:140-143 | splitting "BUG-" + pad3(n) on '-' gives "BUG" and the padded number, and parsing that gives n back, for every n >= 0 |
| BugReportModel.FirstBugId | quash-sampler-backend/src/models/BugReport.js:136-138 | numbering starts at BUG-001 |
| BugReportModel.NextBugId | quash-sampler-backend/src/models/BugReport.js:140-143 | after the id of report n comes the id of report n + 1 |
| BugReportModel.DaysSinceCreated | quash-sampler-backend/src/models/BugReport.js:121-125 | the distance between the two times in days rounded up: 0 iff equal, otherwise the least whole number of days covering it |
| BugReportModel.OverdueMeaning | quash-sampler-backend/src/models/BugReport.js:128-130 | overdue iff the status is Open and more than seven whole days lie between creation and now |
| BugReportModel.ResolvedAtAfterSave | quash-sampler-backend/src/models/BugReport.js:153-159 | a status change to Resolved sets an unset resolvedAt and keeps a set one; a change to anything else clears it; no change keeps it |
| BugReportModel.SaveKeepsResolutionConsistent | quash-sampler-backend/src/models/BugReport.js:153-159 | if resolvedAt is set exactly while resolved before a save, it is so after |
| BugReportModel.IdOnSave | quash-sampler-backend/src/models/BugReport.js:148-150 | only a new report without an id takes the generated id, any other keeps its own; the step fails exactly when the latest report has no id |
| BugReportModel.BugReportDocument.PreSave | quash-sampler-backend/src/models/BugReport.js:147-162 | only a new report without an id gets the generated one, an existing id is never overwritten, a failed id query changes nothing; then resolvedAt as above |
| CommentModel.CountKind | quash-sampler-backend/src/models/Comment.js:64-74 | a kind is counted no more often than there are reactions |
| CommentModel.CountsWithinLength | quash-sampler-backend/src/models/Comment.js:64-74 | the like, useful and resolved counts together are at most the number of reactions |
| CommentModel.CountReactions | quash-sampler-backend/src/models/Comment.js:64-74 | one pass yields each kind's count, other kinds ignored, the sum at most the length |
| CommentModel.ToggleTwiceRestores | quash-sampler-backend/src/models/Comment.js:77-91 | toggling an absent pair twice restores the reactions exactly |
| CommentModel.ToggleChangesCountByOne | quash-sampler-backend/src/models/Comment.js:77-91 | a toggle changes the number of copies of the pair by exactly one |
| CommentModel.ToggleKeepsOthers | quash-sampler-backend/src/models/Comment.js:77-91 | every other reaction keeps its relative order |
| CommentModel.CommentDocument.ToggleReaction | quash-sampler-backend/src/models/Comment.js:77-91 | removes the first matching entry and answers removed, or appends the pair and answers added; nothing else changes |
| CommentModel.CommentDocument.SetText | quash-sampler-backend/src/models/Comment.js:94-100 | assigning a different text marks the comment modified |
| CommentModel.CommentDocument.PreSave | quash-sampler-backend/src/models/Comment.js:94-100 | marks edited at the save time only an existing comment whose text changed |
| CommentModel.SaveNewComment | quash-sampler-backend/src/models/Comment.js:94-100 | a new comment is never marked edited |
| CommentModel.EditExistingComment | quash-sampler-backend/src/models/Comment.js:94-100 | an existing comment whose text changes is marked edited at the save time |
| ScenarioRoutes.OrDefault | quash-sampler-backend/src/scenarioRoutes.js:64 | `x \|\| d` on a number: the value unless it is missing or 0 |
| ScenarioRoutes.StringToNumber | quash-sampler-backend/src/scenarioRoutes.js:64 | a string of digits reads as its value, a blank string as 0; any other text is trimmed of JavaScript white space and read as a signed integer |
| ScenarioRoutes.SignedInteger | quash-sampler-backend/src/scenarioRoutes.js:82 | a text reads as a number iff it is digits, or a "+" or "-" followed by digits, and then as that value with its sign |
| ScenarioRoutes.ClampDelay | quash-sampler-backend/src/scenarioRoutes.js:64 | always within [0, 10000]; a missing or zero value falls back to the default, negatives become 0, values above 10000 become 10000 |
| ScenarioRoutes.DelayedMs | quash-sampler-backend/src/scenarioRoutes.js:63-71 | /delayed waits within [0, 10000], 1500 ms by default |
| ScenarioRoutes.DelayMs | quash-sampler-backend/src/scenarioRoutes.js:494-508 | /delay waits within [0, 10000], 1000 ms by default |
| ScenarioRoutes.CreateOrder | quash-sampler-backend/src/scenarioRoutes.js:73-100 | 422 on productId iff it is falsy or not a string; else 422 on quantity iff it is not a positive number; else 201 with id "order_" + time, the quantity as a number, channel defaulting to "app", status "received" |
| ScenarioRoutes.MockData | quash-sampler-backend/src/scenarioRoutes.js:549-557 | n items with ids 1..n, names "Item i", status by index mod 3, created (n - i) days before now |
| ScenarioRoutes.MockDataChronological | quash-sampler-backend/src/scenarioRoutes.js:554 | items are strictly oldest first, all before now |
| ScenarioRoutes.StatusCycle | quash-sampler-backend/src/scenarioRoutes.js:555 | statuses repeat every three items |
| ScenarioRoutes.MockWindow | quash-sampler-backend/src/scenarioRoutes.js:549-557 | a slice from lo holds consecutive ids from lo + 1, cut at the end of the data |
| ScenarioRoutes.ItemsBetween | quash-sampler-backend/src/scenarioRoutes.js:560-594 | the slice of the 100 items: its length and ids, and the length when the end is negative |
| ScenarioRoutes.CappedLimit | quash-sampler-backend/src/scenarioRoutes.js:560-594 | the limit is never 0 and at most 100 |
| ScenarioRoutes.PageOffset | quash-sampler-backend/src/scenarioRoutes.js:560-594 | the offset of a page >= 1 with a positive limit is not negative |
| ScenarioRoutes.OffsetPagination | quash-sampler-backend/src/scenarioRoutes.js:560-594 | 400 INVALID_PAGE iff page < 1; otherwise the items from (page - 1) * limit, totals, hasNext iff page < totalPages, hasPrevious iff page > 1 |
| ScenarioRoutes.OffsetPagesBeforeLastAreFull | quash-sampler-backend/src/scenarioRoutes.js:560-594 | with a positive limit, a page that has a next page holds exactly limit items |
| ScenarioRoutes.OffsetLastPage | quash-sampler-backend/src/scenarioRoutes.js:560-594 | with a positive limit, the last page is non-empty and ends with item 100, and pages after it are empty |
| ScenarioRoutes.OffsetNegativeLimit | quash-sampler-backend/src/scenarioRoutes.js:560-594 | a limit of -n (0 < n < 100) is not rejected: page 1 returns 100 - n items and no next page |
| ScenarioRoutes.CursorStart | quash-sampler-backend/src/scenarioRoutes.js:597-635 | no cursor starts at 0; a cursor that parses to an id in 1..100 starts just after that item; any other cursor is invalid |
| ScenarioRoutes.CursorPagination | quash-sampler-backend/src/scenarioRoutes.js:597-635 | 400 INVALID_CURSOR exactly when the cursor matches no id |
| ScenarioRoutes.CursorPageFacts | quash-sampler-backend/src/scenarioRoutes.js:597-635 | a cursor page reports the capped limit and the cursor given; hasMore iff start + limit < 100; nextCursor is set exactly when hasMore, and is then the id of the last returned item |
| ScenarioRoutes.CursorPageWindow | quash-sampler-backend/src/scenarioRoutes.js:597-635 | with a positive limit a valid cursor yields a page of at most limit items, numbered from just after the start, whose next cursor is start + limit when hasMore |
| ScenarioRoutes.HexCursor | quash-sampler-backend/src/scenarioRoutes.js:604-618 | a cursor "0x10" reads as 16, as `parseInt` reads hex |
| JsNumbers.ParseIntOfHex | quash-sampler-backend/src/scenarioRoutes.js:606 | `parseInt` of "0x" and hex digits reads them in base 16 and ignores what follows |
| JsNumbers.BareHexPrefixIsNaN | quash-sampler-backend/src/scenarioRoutes.js:606 | `parseInt` of "0x" alone is NaN |
| ScenarioRoutes.CursorOfId | quash-sampler-backend/src/scenarioRoutes.js:604-618 | the cursor an id in 1..100 renders to starts just after that item |
| ScenarioRoutes.CursorPagesChain | quash-sampler-backend/src/scenarioRoutes.js:597-635 | the next page begins right after the last item of this one |
| ScenarioRoutes.CursorNegativeLimitCrash | quash-sampler-backend/src/scenarioRoutes.js:597-635 | a limit of -100 or less empties the first page while hasMore holds, and reading its last item throws |
| ScenarioRoutes.LinkTargetsRelations | quash-sampler-backend/src/scenarioRoutes.js:651-665 | always first and last, prev iff page > 1, next iff page < totalPages, in the order first, prev, next, last |
| ScenarioRoutes.RenderLinksEach | quash-sampler-backend/src/scenarioRoutes.js:653-663 | one rendered link per target, in order |
| ScenarioRoutes.LinkHeaderPage | quash-sampler-backend/src/scenarioRoutes.js:638-675 | the pushed links joined with ", " are the rendering of LinkTargets, and the items are the page's slice |
| ScenarioRoutes.GenerateNested | quash-sampler-backend/src/scenarioRoutes.js:737-751 | levels run consecutively from the starting level and bottom out at max(depth, start) |
| ScenarioRoutes.NestedDeep | quash-sampler-backend/src/scenarioRoutes.js:858-871 | the depth is capped at 50 and the object bottoms out at level max(depth, 1) |
| ScenarioRoutes.ConditionalGet | quash-sampler-backend/src/scenarioRoutes.js:166-181 | 304 iff If-None-Match equals "\"abc123\"" exactly, otherwise 200 with that ETag |
| ScenarioRoutes.WeakTagIsNotMatched | quash-sampler-backend/src/scenarioRoutes.js:170 | a weak tag or a list of tags is not matched (no weak comparison as in section 3.2 of RFC 7232) |
| LoginViewModel.LoginError | app/src/main/java/com/g/quash_sampler/ui/login/LoginViewModel.kt:43-63 | no error iff the response succeeded with a session id; otherwise the message or "Login failed. Please try again." |
| LoginViewModel.LoginModel.OnIdentifierChanged | app/src/main/java/com/g/quash_sampler/ui/login/LoginViewModel.kt:28-30 | sets the identifier and clears the error |
| LoginViewModel.LoginModel.Login | app/src/main/java/com/g/quash_sampler/ui/login/LoginViewModel.kt:32-42 | a blank identifier sets "Please enter a valid phone or email" and sends nothing; otherwise sends the trimmed identifier with loading on |
| LoginViewModel.LoginModel.CompleteLogin | app/src/main/java/com/g/quash_sampler/ui/login/LoginViewModel.kt:43-63 | clears loading, sets LoginError, navigates with the session id exactly when there is no error |
| LoginViewModel.RetypeAfterRefusal | app/src/main/java/com/g/quash_sampler/ui/login/LoginViewModel.kt:28-37 | typing after a refused login clears the error |
| OtpViewModel.VerifyGuard | app/src/main/java/com/g/quash_sampler/ui/otp/OtpViewModel.kt:44-54 | a blank session id gives "Session expired. Please login again." before the length check; otherwise a code not 6 long gives "Enter the 6-digit code" |
| OtpViewModel.VerifyError | app/src/main/java/com/g/quash_sampler/ui/otp/OtpViewModel.kt:60-88 | no error iff the response succeeded with a token; otherwise the message or "OTP verification failed. Try again." |
| OtpViewModel.OtpModel.SetSessionId | app/src/main/java/com/g/quash_sampler/ui/otp/OtpViewModel.kt:30-38 | the same id changes nothing; a new id replaces it and clears code and error |
| OtpViewModel.OtpModel.OnOtpChanged | app/src/main/java/com/g/quash_sampler/ui/otp/OtpViewModel.kt:40-42 | sets the code and clears the error |
| OtpViewModel.OtpModel.VerifyOtp | app/src/main/java/com/g/quash_sampler/ui/otp/OtpViewModel.kt:44-59 | sends nothing iff a guard fails, then with its error; otherwise sends the id and code with loading on |
| OtpViewModel.OtpModel.CompleteVerify | app/src/main/java/com/g/quash_sampler/ui/otp/OtpViewModel.kt:60-88 | clears loading and sets VerifyError; on success clears the code, stores the user and signs in once, otherwise never signs in |
| OtpViewModel.NewSessionNeedsNewCode | app/src/main/java/com/g/quash_sampler/ui/otp/OtpViewModel.kt:30-54 | after a new session id the old code is gone, so verifying asks for the code |
| OnboardingViewModel.ValidateDateOfBirth | app/src/main/java/com/g/quash_sampler/ui/onboarding/OnboardingViewModel.kt:114-124 | no error iff blank or exactly 4 digits, '-', 2 digits, '-', 2 digits |
| OnboardingViewModel.DigitsWithDashesPass | app/src/main/java/com/g/quash_sampler/ui/onboarding/OnboardingViewModel.kt:114-124 | any digits of that shape pass, with no calendar check |
| OnboardingViewModel.MisshapenDateRefused | app/src/main/java/com/g/quash_sampler/ui/onboarding/OnboardingViewModel.kt:114-124 | a non-blank value of another length or without '-' at position 4 is refused |
| OnboardingViewModel.NonBlank | app/src/main/java/com/g/quash_sampler/ui/onboarding/OnboardingViewModel.kt:140-149 | a blank value is sent as null, any other as it is |
| OnboardingViewModel.OnboardingModel.constructor | app/src/main/java/com/g/quash_sampler/ui/onboarding/OnboardingViewModel.kt:22-56 | step 1 of 4, empty form, role "Reporter" |
| OnboardingViewModel.OnboardingModel.InitializeOnboarding | app/src/main/java/com/g/quash_sampler/ui/onboarding/OnboardingViewModel.kt:58-66 | stores the user and copies its name, address, date of birth (empty when null) and role into the form; all else unchanged |
| OnboardingViewModel.OnboardingModel.CurrentStep | app/src/main/java/com/g/quash_sampler/ui/onboarding/OnboardingViewModel.kt:68-70 | the step description of the current step number |
| OnboardingViewModel.OnboardingModel.NextStep | app/src/main/java/com/g/quash_sampler/ui/onboarding/OnboardingViewModel.kt:72-80 | below the last step moves on and clears the error, otherwise changes nothing; all else unchanged; the step stays in [1, 4] |
| OnboardingViewModel.OnboardingModel.PreviousStep | app/src/main/java/com/g/quash_sampler/ui/onboarding/OnboardingViewModel.kt:82-90 | above step 1 moves back and clears the error, otherwise changes nothing; all else unchanged; the step stays in [1, 4] |
| OnboardingViewModel.OnboardingModel.SkipCurrentStep | app/src/main/java/com/g/quash_sampler/ui/onboarding/OnboardingViewModel.kt:136-138 | exactly as NextStep, all else unchanged |
| OnboardingViewModel.OnboardingModel.UpdateName | app/src/main/java/com/g/quash_sampler/ui/onboarding/OnboardingViewModel.kt:92-97 | sets the name, with "Name is required" iff it is blank; all else unchanged |
| OnboardingViewModel.OnboardingModel.UpdateAddress | app/src/main/java/com/g/quash_sampler/ui/onboarding/OnboardingViewModel.kt:99-101 | sets the address; all else unchanged |
| OnboardingViewModel.OnboardingModel.UpdateDateOfBirth | app/src/main/java/com/g/quash_sampler/ui/onboarding/OnboardingViewModel.kt:103-108 | sets the date and its error from ValidateDateOfBirth; all else unchanged |
| OnboardingViewModel.OnboardingModel.UpdateRole | app/src/main/java/com/g/quash_sampler/ui/onboarding/OnboardingViewModel.kt:110-112 | sets the role; all else unchanged |
| OnboardingViewModel.OnboardingModel.CanProceedToNextStep | app/src/main/java/com/g/quash_sampler/ui/onboarding/OnboardingViewModel.kt:126-134 | true at steps 1 and 4; at step 2 iff the name is non-blank without error; at step 3 iff the date has no error; false elsewhere |
| OnboardingViewModel.OnboardingModel.UpdateRequest | app/src/main/java/com/g/quash_sampler/ui/onboarding/OnboardingViewModel.kt:140-149 | name and role as typed; blank address or date sent as null |
| OnboardingViewModel.OnboardingModel.CompleteOnboarding | app/src/main/java/com/g/quash_sampler/ui/onboarding/OnboardingViewModel.kt:140-149 | no request while completing; otherwise the update request for the user |
| OnboardingViewModel.OnboardingModel.OnProfileResult | app/src/main/java/com/g/quash_sampler/ui/onboarding/OnboardingViewModel.kt:151-172 | loading sets completing; success clears it, shows the completion screen and takes name and role from the form; error clears it and sets the error; all else unchanged in each case |
| OnboardingViewModel.OnboardingModel.FinishOnboarding | app/src/main/java/com/g/quash_sampler/ui/onboarding/OnboardingViewModel.kt:177-179 | only sets isCompleted |
| OnboardingViewModel.OnboardingModel.SkipOnboarding | app/src/main/java/com/g/quash_sampler/ui/onboarding/OnboardingViewModel.kt:181-183 | only sets isCompleted |
| OnboardingViewModel.OnboardingModel.ClearError | app/src/main/java/com/g/quash_sampler/ui/onboarding/OnboardingViewModel.kt:185-187 | clears the error; all else unchanged |
| OnboardingViewModel.ForwardAndBack | app/src/main/java/com/g/quash_sampler/ui/onboarding/OnboardingViewModel.kt:72-90 | a step forward then back returns to the same step |
| OnboardingViewModel.NameUnblocksPersonalStep | app/src/main/java/com/g/quash_sampler/ui/onboarding/OnboardingViewModel.kt:92-134 | typing a non-blank name on step 2 lets the user proceed |
| BugReportViewModel.RequiredError | app/src/main/java/com/g/quash_sampler/ui/bugreport/BugReportViewModel.kt:103-119 | a field's error is set iff it is blank |
| BugReportViewModel.Validate | app/src/main/java/com/g/quash_sampler/ui/bugreport/BugReportViewModel.kt:103-119 | valid iff title, description, category, priority and environment are all non-blank; each of the five errors is set iff its field is blank |
| BugReportViewModel.DefaultFormInvalid | app/src/main/java/com/g/quash_sampler/ui/bugreport/BugReportViewModel.kt:174-176 | the initial form is invalid because its title is blank |
| BugReportViewModel.WithField | app/src/main/java/com/g/quash_sampler/ui/bugreport/BugReportViewModel.kt:34-77 | a field setter keeps the attachments |
| BugReportViewModel.OptionalFieldsKeepValidation | app/src/main/java/com/g/quash_sampler/ui/bugreport/BugReportViewModel.kt:54-77 | setting steps, expected or actual behaviour, reproducibility or severity cannot change the verdict |
| BugReportViewModel.BugReportModel.constructor | app/src/main/java/com/g/quash_sampler/ui/bugreport/BugReportViewModel.kt:174-176 | the default form, validated at start |
| BugReportViewModel.BugReportModel.UpdateField | app/src/main/java/com/g/quash_sampler/ui/bugreport/BugReportViewModel.kt:34-77 | sets the field; title, description, priority, category and environment re-validate, the others leave validation as it was |
| BugReportViewModel.BugReportModel.AddAttachment | app/src/main/java/com/g/quash_sampler/ui/bugreport/BugReportViewModel.kt:79-83 | appends the file at the end, all else unchanged |
| BugReportViewModel.BugReportModel.RemoveAttachment | app/src/main/java/com/g/quash_sampler/ui/bugreport/BugReportViewModel.kt:85-89 | removes only the first equal file, all else unchanged |
| BugReportViewModel.BugReportModel.ClearAttachments | app/src/main/java/com/g/quash_sampler/ui/bugreport/BugReportViewModel.kt:91-95 | empties the list, all else unchanged |
| BugReportViewModel.BugReportModel.SubmitBugReport | app/src/main/java/com/g/quash_sampler/ui/bugreport/BugReportViewModel.kt:121-129 | an invalid form sets "Please fix all validation errors before submitting" and sends nothing; a valid one sends the form and reporter; the success message is kept |
| BugReportViewModel.BugReportModel.OnBugResult | app/src/main/java/com/g/quash_sampler/ui/bugreport/BugReportViewModel.kt:131-157 | loading sets isLoading and clears the error, keeping the success message; success submits and stores the message; error clears loading and sets the error |
| BugReportViewModel.BugReportModel.ClearError | app/src/main/java/com/g/quash_sampler/ui/bugreport/BugReportViewModel.kt:162-164 | clears the error only |
| BugReportViewModel.BugReportModel.ClearSuccessMessage | app/src/main/java/com/g/quash_sampler/ui/bugreport/BugReportViewModel.kt:166-168 | clears the success message only |
| BugReportViewModel.BugReportModel.ResetForm | app/src/main/java/com/g/quash_sampler/ui/bugreport/BugReportViewModel.kt:170-172 | restores the default form with the state's own default validation, which differs from validating that form (no field errors), though both are invalid |
| BugReportViewModel.FillAndSubmit | app/src/main/java/com/g/quash_sampler/ui/bugreport/BugReportViewModel.kt:34-129 | filling title, description and environment makes the default form submittable |
| ScenarioViewModel.ActionOf | app/src/main/java/com/g/quash_sampler/ui/home/ScenarioViewModel.kt:67-72 | createOrder uses ACTION_ORDER_OK with a quantity label iff quantity > 0, otherwise ACTION_ORDER_INVALID |
| ScenarioViewModel.Prepended | app/src/main/java/com/g/quash_sampler/ui/home/ScenarioViewModel.kt:99-113 | the new log first, then the old ones in order, at most 20 |
| ScenarioViewModel.PrependKeepsNewestFirst | app/src/main/java/com/g/quash_sampler/ui/home/ScenarioViewModel.kt:99-113 | logs stay newest first |
| ScenarioViewModel.ScenarioModel.StartAction | app/src/main/java/com/g/quash_sampler/ui/home/ScenarioViewModel.kt:90-96 | adds the id to the in-flight set and clears the error |
| ScenarioViewModel.ScenarioModel.FinishAction | app/src/main/java/com/g/quash_sampler/ui/home/ScenarioViewModel.kt:97-124 | removes the id; success prepends a log copying status, success flag and body preview with the label; failure sets the message or "Unexpected error" and keeps the logs |
| ScenarioViewModel.ScenarioModel.ExecuteAction | app/src/main/java/com/g/quash_sampler/ui/home/ScenarioViewModel.kt:85-124 | start then finish: the action's id is not in flight afterwards; a returned response prepends its log entry (label, status, success flag, body preview, time) to the old logs and leaves no error; logs never exceed 20 |
| ScenarioViewModel.ScenarioModel.ClearError | app/src/main/java/com/g/quash_sampler/ui/home/ScenarioViewModel.kt:81-83 | clears the error only |
| ScenarioViewModel.LogMany | app/src/main/java/com/g/quash_sampler/ui/home/ScenarioViewModel.kt:99-113 | any number of successes leaves min(old + new, 20) logs |

## Left out

- The timers are not modelled. The `setTimeout` that deletes a session after five minutes is covered by the expiry check against `now`. The hourly `setInterval` is the explicit `SweepExpired` method.
- Randomness, the clock, generated ids and JWT signing and verification are parameters. The JWT library's behaviour is not modelled.
- Concurrency is not modelled; every operation runs on its own, one after another. This includes concurrent requests on one OTP session and overlapping `executeAction` calls with the same id.
- Logging (`console.log`), the `/health` route and the sleeps of /delayed and /delay are left out. For those two routes only the clamp is modelled.
- OtpService.GenerateOtp: the random draw is an integer below 900000 standing for `Math.floor(Math.random() * 900000)`; floating point is not modelled.
- ScenarioRoutes.StringToNumber: `Number()` is modelled for blank strings and decimal integers only. Fractions, exponents, hex and Infinity are out, so CreateOrder's "not finite" case is seen only through values that do not read as integers.
- UserService.ApplyUpdate: `$set` writes every key the request body sends. The model's update carries the four keys the client sends (name, address, date of birth, role; OnboardingViewModel.kt:144-149 and the profile screen), so it cannot write a contact.
- UserService.UserDirectory.FindOrCreateUser: the duplicate key error is the fixed text "E11000 duplicate key error"; the index and key named in MongoDB's message are not modelled.
- Request bodies are modelled as strings. A JSON number sent as `otp` is never strictly equal to the stored string, so it fails as a wrong code, and a non-string `identifier` makes `identifier.trim()` throw; neither case is modelled.
- ScenarioRoutes.CreateOrder: a quantity given as an array is treated as a non-number, though `Number([5])` is 5.
- Numbers are exact unbounded integers. JavaScript's `parseInt`, `Number` and `toString` work on doubles: they are exact only below 2^53, and `toString` writes 10^21 and above in exponent form. GenerateBugId, CursorStart, PageParam, CappedLimit, NestedDeep and the other query parameters are modelled without that loss of precision or that notation.
- BugIdNumberRoundTrip holds for every n in the model, but in JavaScript only below 2^53: above that the number is rounded, and from 10^21 the id is written as "BUG-1e+21", which parses back to 1.
- NextBugId holds for every n in the model, but in JavaScript the id stops advancing once n + 1 is no longer exact (from 2^53).
- Lengths are counted in Unicode scalar values, not UTF-16 code units, both for JavaScript `length` and Kotlin `length`.
- Dates are milliseconds since the epoch; ISO rendering of dates is left out.
- The Mongoose schema setters (`trim`, `lowercase`) are not modelled. The unique sparse indexes are the directory's invariant that no two users share an email or a phone, null included.
- UserModel.UserDocument.PreSave: a failed Boolean cast is recorded by Mongoose as a validation error on the document; the model leaves the flag unchanged and lets the save go on, and does not model that error.
- `findByIdAndUpdate` does not run the save hook, so an update leaves the completeness flag as it was.
- `getUserById`, the users-by-role query and the other user-service queries are database reads with no logic of their own, and are not modelled.
- Scenario endpoints other than the delay clamp, /orders, /redirect/304, the three paginations and /nested-deep return fixed shapes or depend on randomness or JSON lengths. These include the status codes, headers, CORS, unicode, /random, /flaky and /large-response.
- The `Math.random` suffix of `/auth/verify-otp`'s token and of the session id is the parameter `suffix`.
- `getProgressPercentage` of the onboarding view-model returns a Float and is not modelled.
- The onboarding view-model reads address, date of birth and role from its user. The model uses a user record with those fields, since the client's domain user type lacks them.
- BugReportViewModel.BugReportModel.UpdateField stands for the ten Kotlin setters, which differ only in the field they set.
- The view-models' coroutines, flows and repositories are not modelled. Each asynchronous flow is a start method (guards and the request it would send) and a result method (the state after the answer).
- The Compose screens, navigation, network and dependency-injection code, HomeViewModel and ProfileViewModel are not part of this model.
