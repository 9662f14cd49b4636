# KinexFit entitlements, quotas and account flows in Dafny

This project models the part of KinexFit that decides what a user may do and
keeps it consistent between the iOS client and the backend. It covers:

- **Subscriptions on the client.** StoreKit entitlements become a set of
  purchased product identifiers and from there a subscription tier. A purchase
  and each transaction update run verify → validate with the backend → refresh
  → finish. The backend's answer overwrites the cached subscription in the local
  `users` table.
- **The local user store.** The GRDB `users` table: reading the current user,
  `save` (an upsert by primary key), the single-statement UPDATEs (scan quota,
  subscription, onboarding flag), clearing, and account deletion. Account
  deletion calls the backend before it deletes anything locally.
- **The backend user table.** The DynamoDB operations on user items: the
  subscription UpdateItem (an upsert) and the quota increment, which fails on a
  missing user or counter.
- **Quota windows.** The weekly and monthly reset predicates and the month key.
- **Email and password sign-in.** The five password rules, in order. The
  mapping of API errors to `AuthError`. Sign-up and sign-in with their token and
  user storage.
- **Instagram import.** The URL recogniser, proved equal to the regular
  expression it stands for. The error mappers, the error texts and their
  classification. The fetch/parse pipeline and the `FetchedWorkout` it builds.
- **Onboarding.** The eight-step state machine and its completion.

Every call to something outside this core is a parameter. That covers the
network (the reply is an argument; requests are recorded in order in a `sent`
field), the clock (`now`), StoreKit's verdicts, the receipt file and ISO-8601
parsing. Timestamps are integers: milliseconds since the epoch on the backend,
and opaque instants on the client.

One module per source file: `QuotaReset`, `UserModel`, `ProductIDs`,
`StoreKitTypes`, `LocalStore`, `UserRepository`, `PurchaseValidator`,
`StoreManager`, `DynamoUsers`, `PasswordAuth`, `InstagramErrors`,
`InstagramModels`, `InstagramService` and `Onboarding`. The helper modules are
`Wrappers` (Option/Result), `Text` (decimal rendering, substring search, ASCII
lower-casing) and `ApiModel` (the API client's error and endpoint types).

Where the prose description of the backend and the code disagree, the model
follows the code. For example, updating the subscription of an unknown user
creates the item (DynamoDB's UpdateItem upserts); it does not fail with
"not found".

## Model

| member | source | states |
|---|---|---|
| QuotaReset.CivilFromDays | src/lib/quota-reset.ts:17 | the month of a day number lies in 0..11, the range `getUTCMonth` returns (the calendar itself is checked by the scenario lemmas) |
| QuotaReset.UtcYearMonth | src/lib/quota-reset.ts:17 | the UTC month of a millisecond timestamp, days rounded down before the epoch, lies in 0..11 |
| QuotaReset.LastResetTime | src/lib/quota-reset.ts:6-8 | no time when the stored value is null, undefined or empty, or does not parse; otherwise the parsed time |
| QuotaReset.IsWeeklyResetDue | src/lib/quota-reset.ts:5-11 | due exactly when there is no usable last reset, or when at least 7·24·60·60·1000 ms have passed |
| QuotaReset.IsMonthlyResetDue | src/lib/quota-reset.ts:13-18 | due exactly when there is no usable last reset, or when the UTC year or month differs |
| QuotaReset.MonthKey | src/lib/quota-reset.ts:1-3 | the key always has the seven characters `slice(0, 7)` keeps: "YYYY-MM" for four-digit years, else a sign and six year digits |
| QuotaReset.PaddedInjective | src/lib/quota-reset.ts:2 | zero-padded numbers that fit the width are equal only when the numbers are equal |
| QuotaReset.MonthKeyIsYearMonth | src/lib/quota-reset.ts:1-3 | for years 0..9999 two instants have the same month key exactly when they share the UTC year and month |
| QuotaReset.MonthlyDueIffMonthKeyDiffers | src/lib/quota-reset.ts:1-18 | for four-digit years the monthly reset is due exactly when the month keys differ |
| QuotaReset.MonthKeyDropsMonthAfterYear9999 | src/lib/quota-reset.ts:2 | after year 9999 two instants in different months share a month key |
| QuotaReset.FailOpen | src/lib/quota-reset.ts:6-16 | a missing, empty or unparsable last reset makes both resets due |
| QuotaReset.WeeklyBoundary | src/lib/quota-reset.ts:9-10 | due at exactly seven days, not one millisecond earlier, never while now precedes the last reset |
| QuotaReset.WeeklyDueIsMonotone | src/lib/quota-reset.ts:5-11 | once due, the weekly reset stays due at every later time |
| QuotaReset.MonthlyNotDueWithinMonth | src/lib/quota-reset.ts:17 | never due within one UTC calendar month |
| QuotaReset.MonthBoundaryScenario | src/lib/quota-reset.ts:5-18 | 2024-01-31T23:59:00Z then 2024-02-01T00:00:05Z: monthly due, weekly not |
| UserModel.TierRank | ios/KinexFit/Models/User.swift:46-51 | the position in `allCases` (free < core < pro < elite) is below 4 |
| UserModel.ScanLimit | ios/KinexFit/Models/User.swift:61-68 | a positive scan limit per tier, `Int.max` exactly for elite |
| UserModel.AiLimit | ios/KinexFit/Models/User.swift:24-31 | a positive AI limit per tier, `Int.max` exactly for elite |
| UserModel.DisplayName | ios/KinexFit/Models/User.swift:33-41 | starts with a non-empty first name, is exactly that name when the last name is nil or empty, and is the email when there is no first name |
| UserModel.TierFromRawValue | ios/KinexFit/Models/User.swift:46-51 | a decoded tier has the input as its raw value |
| UserModel.StatusFromRawValue | ios/KinexFit/Models/User.swift:71-76 | a decoded status has the input as its raw value ("past_due" for `pastDue`) |
| UserModel.OptionalText | ios/KinexFit/Models/User.swift:95-98 | a value exactly when the column is present and holds text; absent or NULL reads as nil |
| UserModel.UserFromRow | ios/KinexFit/Models/User.swift:92-103 | the id and the scan counter come from their columns (the full read is `RowRoundTrip` and `RowDefaults`) |
| UserModel.EncodedColumns | ios/KinexFit/Models/User.swift:105-116 | writes a row that `init(row:)` can read without a conversion failure |
| UserModel.EncodeUser | ios/KinexFit/Models/User.swift:105-116 | assigns the mapped columns of the container over its old contents, and the container then reads back as the same user |
| UserModel.RawValuesRoundTrip | ios/KinexFit/Models/User.swift:46-76 | tier and status raw values decode to themselves and no other string decodes to them |
| UserModel.RowRoundTrip | ios/KinexFit/Models/User.swift:92-116 | `encode(to:)` then `init(row:)` gives back the same user, whatever the container held |
| UserModel.RowDefaults | ios/KinexFit/Models/User.swift:97-101 | a missing tier, or any string that is not a tier's raw value, reads as free; any status string that is not a raw value reads as nil; a missing onboarding flag reads as false |
| UserModel.LimitsMonotone | ios/KinexFit/Models/User.swift:19-68 | scan and AI limits never decrease along free < core < pro < elite, and both of elite's limits are `Int.max` |
| UserModel.DisplayNameCases | ios/KinexFit/Models/User.swift:33-41 | "first last" when both are non-empty, the first name when only it is, otherwise the email |
| ProductIDs.FromRawValue | ios/KinexFit/Store/ProductIDs.swift:5-8 | decodes exactly the three product identifiers |
| ProductIDs.RawValue | ios/KinexFit/Store/ProductIDs.swift:5-8 | every identifier is under the app's `com.kinex.fit.` prefix |
| ProductIDs.DisplayName | ios/KinexFit/Store/ProductIDs.swift:11-17 | a non-empty name that is never the free tier's |
| ProductIDs.Tier | ios/KinexFit/Store/ProductIDs.swift:29-35 | every product grants a paid tier |
| ProductIDs.RawValueRoundTrip | ios/KinexFit/Store/ProductIDs.swift:5-8 | `ProductID(rawValue:)` inverts `rawValue` and accepts no other string |
| ProductIDs.TierIsPaidAndInjective | ios/KinexFit/Store/ProductIDs.swift:29-35 | every product grants a paid tier and different products grant different tiers |
| ProductIDs.DisplayNameMatchesTier | ios/KinexFit/Store/ProductIDs.swift:11-17 | a product shows the display name of the tier it grants |
| PurchaseValidator.GetReceiptData | ios/KinexFit/Store/PurchaseValidator.swift:53-64 | a missing receipt is `failedVerification`, a read error propagates, a present receipt gives its base64 text |
| PurchaseValidator.RequestFor | ios/KinexFit/Store/PurchaseValidator.swift:28-36 | the request carries the transaction's id as text, its product id and the receipt |
| PurchaseValidator.SentBy | ios/KinexFit/Store/PurchaseValidator.swift:22-39 | one request exactly when the receipt was obtained, none otherwise |
| PurchaseValidator.PurchaseValidator.Validate | ios/KinexFit/Store/PurchaseValidator.swift:18-49 | receipt, then request, then local update, each only when the step before succeeded; the outcome and the rows as the spec functions say |
| PurchaseValidator.ValidationEffects | ios/KinexFit/Store/PurchaseValidator.swift:18-49 | without a receipt nothing is sent or written; on a failed send nothing is written; on success every row carries the answer and keeps its counters |
| PurchaseValidator.ValidationIdempotent | ios/KinexFit/Store/PurchaseValidator.swift:44-48 | validating twice with the same answer leaves the same rows as validating once |
| PurchaseValidator.CoreActivationScenario | ios/KinexFit/Store/PurchaseValidator.swift:18-49 | a core purchase answered core/active makes every cached row core and active with counters kept |
| UserRepository.SavedRows | ios/KinexFit/Services/UserRepository.swift:32-37 | a known id keeps the table size; an unknown id appends a row with no expiry |
| UserRepository.WithSubscription | ios/KinexFit/Services/UserRepository.swift:51-69 | the UPDATE has no WHERE clause, so every row is rewritten and the table size is kept |
| UserRepository.UserRepository.GetCurrentUser | ios/KinexFit/Services/UserRepository.swift:23-27 | nil exactly when the table is empty, else the first row's user |
| UserRepository.UserRepository.Save | ios/KinexFit/Services/UserRepository.swift:32-37 | the table becomes `SavedRows` of the old table; the primary keys stay distinct |
| UserRepository.UserRepository.IncrementScanQuota | ios/KinexFit/Services/UserRepository.swift:40-48 | every row's scan counter grows by exactly 1 and its `updatedAt` is set; nothing else changes, so the primary keys stay distinct |
| UserRepository.UserRepository.UpdateSubscription | ios/KinexFit/Services/UserRepository.swift:51-69 | the table becomes `WithSubscription` of the old table; the primary keys stay distinct |
| UserRepository.UserRepository.Clear | ios/KinexFit/Services/UserRepository.swift:72-77 | the table is emptied |
| UserRepository.UserRepository.DeleteAccount | ios/KinexFit/Services/UserRepository.swift:84-119 | the DELETE request is always sent; on its failure nothing local changes; a failed local transaction rolls back and keeps the tokens; otherwise every table is emptied and both tokens are cleared |
| UserRepository.SaveProperties | ios/KinexFit/Services/UserRepository.swift:32-37 | save keeps ids unique, stores exactly the user under its id, leaves other rows alone, and is idempotent |
| UserRepository.SubscriptionLastWriteWins | ios/KinexFit/Services/UserRepository.swift:51-69 | a second subscription update erases every trace of the first |
| UserRepository.SubscriptionUpdateFrame | ios/KinexFit/Services/UserRepository.swift:56-66 | the update sets tier, status, expiry and `updatedAt`, and leaves both quota counters and every other column alone |
| StoreManager.CheckVerified | ios/KinexFit/Store/StoreManager.swift:166-174 | a verified result yields its value; an unverified one is `failedVerification` |
| StoreManager.CurrentSubscription | ios/KinexFit/Store/StoreManager.swift:179-189 | none exactly when no product identifier is purchased; otherwise a purchased product of the highest tier rank |
| StoreManager.HasActiveSubscription | ios/KinexFit/Store/StoreManager.swift:192-194 | true exactly when some known product identifier is purchased |
| StoreManager.SubscriptionTierOf | ios/KinexFit/Store/StoreManager.swift:197-199 | the current product's tier, free without one, never lower than any purchased product's tier |
| StoreManager.EventSteps | ios/KinexFit/Store/StoreManager.swift:116-137 | an event makes no call exactly when its transaction is unverified (the order of the calls is `EventStepsOrder`) |
| StoreManager.StoreManager.UpdatePurchasedProducts | ios/KinexFit/Store/StoreManager.swift:143-162 | the loop builds the set of active entitlements' products, replaces the field with it and records one refresh |
| StoreManager.StoreManager.Purchase | ios/KinexFit/Store/StoreManager.swift:63-97 | success: verify, validate, refresh, finish, return the transaction; cancelled: `purchaseCancelled`; pending: nil; unknown: `unknownError`; an unverified result is `failedVerification`; without a verified transaction no call is made |
| StoreManager.StoreManager.HandleTransactionUpdate | ios/KinexFit/Store/StoreManager.swift:116-137 | succeeds exactly when the event verifies and validates; its calls, requests, rows and purchased set are those the spec functions give for the one event |
| StoreManager.StoreManager.ListenForTransactions | ios/KinexFit/Store/StoreManager.swift:113-139 | after the events the recorded calls, the requests sent, the rows and the purchased set are the spec functions of all events |
| StoreManager.ActiveProductIDsStep | ios/KinexFit/Store/StoreManager.swift:147-158 | each loop step adds the next product exactly when its entitlement is verified and unrevoked |
| StoreManager.ActiveProductIDsMeaning | ios/KinexFit/Store/StoreManager.swift:147-160 | a product is purchased exactly when a verified, unrevoked entitlement names it |
| StoreManager.ActiveProductIDs | ios/KinexFit/Store/StoreManager.swift:147-158 | the product of every verified, unrevoked entitlement is in the set, and no entitlements give the empty set |
| StoreManager.UnverifiedEntitlementSkipped | ios/KinexFit/Store/StoreManager.swift:148-157 | an unverified entitlement changes nothing, wherever it stands |
| StoreManager.TierPrecedenceScenario | ios/KinexFit/Store/StoreManager.swift:179-189 | with core and elite active the tier is elite; once elite is revoked it is core |
| StoreManager.EventStepsOrder | ios/KinexFit/Store/StoreManager.swift:116-137 | validate precedes refresh precedes finish, and finish appears only after a successful validation |
| StoreManager.SucceedingEventsFinished | ios/KinexFit/Store/StoreManager.swift:116-137 | every event that verifies and validates is finished, whatever the other events did |
| StoreManager.FinishedOnlyAfterValidation | ios/KinexFit/Store/StoreManager.swift:119-131 | every recorded finish belongs to an event that verified and validated |
| StoreManager.RequestsOnlyForVerified | ios/KinexFit/Store/StoreManager.swift:119-125 | every validation request sent belongs to a verified event |
| StoreManager.RowsAfterEventsLastWriteWins | ios/KinexFit/Store/StoreManager.swift:116-137 | after the listener the rows carry the answer to the last event that verified and validated; untouched when none did |
| StoreManager.RowsAfterEventsIsOverwrite | ios/KinexFit/Store/StoreManager.swift:116-137 | further events followed by an overwrite leave the overwrite alone |
| DynamoUsers.QuotaField | src/lib/dynamodb-users.ts:72 | 'scan' selects `scanQuotaUsed`, anything else `aiQuotaUsed` |
| DynamoUsers.ItemOrKey | src/lib/dynamodb-users.ts:38-84 | the stored item, or an item holding only the key when there is none |
| DynamoUsers.UsersTable.GetUserById | src/lib/dynamodb-users.ts:15-26 | the stored item, null for an unknown key, the fault when the call fails; the table is unchanged |
| DynamoUsers.UsersTable.UpdateUserSubscription | src/lib/dynamodb-users.ts:31-61 | a fault leaves the table; otherwise the table is `AfterSubscription`, and keys stay consistent |
| DynamoUsers.UsersTable.IncrementUserQuota | src/lib/dynamodb-users.ts:66-91 | a fault or a rejected update leaves the table; otherwise the table is `AfterIncrement`, and keys stay consistent |
| DynamoUsers.SubscriptionKeepsKeys | src/lib/dynamodb-users.ts:38-54 | the update keeps every item's `userId` attribute equal to its key |
| DynamoUsers.IncrementKeepsKeys | src/lib/dynamodb-users.ts:74-84 | the increment keeps every item's `userId` attribute equal to its key |
| DynamoUsers.SubscriptionUpdateFrame | src/lib/dynamodb-users.ts:38-54 | exactly the five subscription attributes of the one item are written, creating it when absent; all else stays |
| DynamoUsers.SubscriptionKeepsQuotas | src/lib/dynamodb-users.ts:38-54 | the quota counters survive a subscription update untouched |
| DynamoUsers.IncrementFrame | src/lib/dynamodb-users.ts:74-84 | with a numeric counter, adds exactly 1 to it and stamps `updatedAt`; no other attribute or item changes; otherwise an error and no change |
| DynamoUsers.IncrementUnknownUser | src/lib/dynamodb-users.ts:74-84 | an increment never creates an item: an unknown user is an error |
| DynamoUsers.SubscriptionCreatesUnknownUser | src/lib/dynamodb-users.ts:38-54 | for an unknown user the update creates an item with the key and the five attributes |
| DynamoUsers.TwoScanIncrements | src/lib/dynamodb-users.ts:66-91 | two scan increments add 2 to the scan counter and leave the AI counter |
| PasswordAuth.RequirementIndex | ios/KinexFit/Services/EmailPasswordAuthService.swift:7-12 | the declaration position, distinct per rule |
| PasswordAuth.Unmet | ios/KinexFit/Services/EmailPasswordAuthService.swift:179-204 | the unmet rules of a list, never more than the list |
| PasswordAuth.ValidatePassword | ios/KinexFit/Services/EmailPasswordAuthService.swift:179-204 | the result is the unmet rules in declaration order; a rule is reported exactly when it is not met |
| PasswordAuth.MapAPIError | ios/KinexFit/Services/EmailPasswordAuthService.swift:235-248 | 401 is an invalid token and 429 a rate limit of 60 seconds, each in both directions; a status of 500 or more or a decoding error is a server error, the status shown in its text; anything else is unknown |
| PasswordAuth.CaughtSendError | ios/KinexFit/Services/EmailPasswordAuthService.swift:166-171 | an `APIError` is mapped; any other error becomes `networkError` |
| PasswordAuth.EmailPasswordAuthService.SignIn | ios/KinexFit/Services/EmailPasswordAuthService.swift:106-172 | one request; on success both tokens stored and the built user saved; on failure the mapped error and nothing stored; the table's primary keys stay distinct |
| PasswordAuth.EmailPasswordAuthService.SignUp | ios/KinexFit/Services/EmailPasswordAuthService.swift:42-96 | unmet rules fail with `invalidPassword` before any request; otherwise sign-up then sign-in: on a sign-in error it is wrapped in `networkError` and neither tokens nor rows change; on success both tokens are stored and the user is saved; the table's primary keys stay distinct |
| PasswordAuth.UnmetMembers | ios/KinexFit/Services/EmailPasswordAuthService.swift:179-204 | a rule is in the result exactly when it is in the list and not met |
| PasswordAuth.IsRequirementMet | ios/KinexFit/Services/EmailPasswordAuthService.swift:211-222 | the length rule needs at least 8 characters, and a character-class rule at least one |
| PasswordAuth.UnmetAppend | ios/KinexFit/Services/EmailPasswordAuthService.swift:179-204 | filtering a concatenation filters each part |
| PasswordAuth.UnmetAllRequirements | ios/KinexFit/Services/EmailPasswordAuthService.swift:182-201 | the five successive checks compute the unmet rules over the declaration order |
| PasswordAuth.PasswordAcceptedIffAllMet | ios/KinexFit/Services/EmailPasswordAuthService.swift:179-224 | no error exactly when all five rules are met; `tooShort` exactly below 8 characters |
| PasswordAuth.UnmetOrdered | ios/KinexFit/Services/EmailPasswordAuthService.swift:179-204 | the failures of an ordered rule list keep its order and do not repeat |
| PasswordAuth.ValidationOrderFixed | ios/KinexFit/Services/EmailPasswordAuthService.swift:182-201 | failures follow tooShort, noLowercase, noUppercase, noNumber, noSpecialChar, without repeats |
| PasswordAuth.PasswordExamples | ios/KinexFit/Services/EmailPasswordAuthService.swift:179-224 | "Passw0rd!" passes; "abc" fails all but the lowercase rule, in order |
| PasswordAuth.SignedInUserDefaults | ios/KinexFit/Services/EmailPasswordAuthService.swift:148-159 | the stored user takes the response's tier when it names one and free otherwise, status active, both counters zero |
| PasswordAuth.UnknownTierSignsInAsFree | ios/KinexFit/Services/EmailPasswordAuthService.swift:148-159 | an unknown tier string signs in as free |
| InstagramErrors.ErrorDescription | ios/KinexFit/Services/InstagramFetchError.swift:15-36 | a non-empty description for every error; the quota text shows "used/limit" and the server text the status |
| InstagramErrors.RecoverySuggestion | ios/KinexFit/Services/InstagramFetchError.swift:38-59 | a suggestion for every error |
| InstagramErrors.ErrorClassification | ios/KinexFit/Services/InstagramFetchError.swift:62-77 | retryable exactly for network, server and rate limit; upgrade exactly for quota; never both |
| InstagramErrors.IsRetryable | ios/KinexFit/Services/InstagramFetchError.swift:62-69 | a quota error is never retryable |
| InstagramErrors.ShouldShowUpgradePrompt | ios/KinexFit/Services/InstagramFetchError.swift:72-77 | an error that prompts an upgrade is never retryable |
| InstagramErrors.QuotaSuggestionShowsLimit | ios/KinexFit/Services/InstagramFetchError.swift:43-44 | the quota suggestion names the monthly limit |
| InstagramErrors.QuotaDescriptionExample | ios/KinexFit/Services/InstagramFetchError.swift:19-20 | quota 12 of 12 reads "Monthly scan quota exceeded (12/12 used)" |
| InstagramModels.OrElse | ios/KinexFit/Models/InstagramFetchModels.swift:150-157 | `a ?? b`: the first value when present, else the second |
| InstagramModels.AuthorName | ios/KinexFit/Models/InstagramFetchModels.swift:177-179 | the full name, else the username, else "Unknown" |
| InstagramModels.ShortContent | ios/KinexFit/Models/InstagramFetchModels.swift:181-186 | at most 100 elements; unchanged up to 100; otherwise the first 97 and "..." (elements, not grapheme clusters) |
| InstagramModels.FetchedWorkoutFallbacks | ios/KinexFit/Models/InstagramFetchModels.swift:149-167 | the parser's title first, post fields from the fetch reply, each quota figure preferring the scan-specific name; the exercise count is the ingest reply's |
| InstagramModels.FetchedWorkoutFrom | ios/KinexFit/Models/InstagramFetchModels.swift:149-162 | the parser's title when it has one, else the post's; the ingest reply and the post URL are kept |
| InstagramModels.ExerciseCount | ios/KinexFit/Models/InstagramFetchModels.swift:165-167 | zero exactly when the parser returned no exercises |
| InstagramModels.HasQuotaInfo | ios/KinexFit/Models/InstagramFetchModels.swift:173-175 | true only when both quota figures are present (`QuotaInfoFromReply` gives both directions in terms of the reply) |
| InstagramModels.QuotaInfoFromReply | ios/KinexFit/Models/InstagramFetchModels.swift:156-175 | quota info is shown exactly when the reply gives both figures under either name |
| InstagramModels.ShortContentIdempotent | ios/KinexFit/Models/InstagramFetchModels.swift:181-186 | shortening twice is shortening once, and the result is the text or a prefix of it plus the ellipsis |
| InstagramService.MapAPIError | ios/KinexFit/Services/InstagramFetchService.swift:129-149 | 401, 404 and 429 map to their errors in both directions, any other status to a server error with that status; a decoding error keeps its cause; other errors are server error 0 |
| InstagramService.MapErrorResponse | ios/KinexFit/Services/InstagramFetchService.swift:152-171 | quota when the message names "quota" or "limit", with 0 and 100 as defaults; then rate limit, not found, server error, each exactly when the earlier tests fail |
| InstagramService.MapErrorResponseRateLimitFirst | ios/KinexFit/Services/InstagramFetchService.swift:152-171 | a "rate limit" message is a rate limit; any other response maps as before |
| InstagramService.InstagramFetchService.FetchInstagramPost | ios/KinexFit/Services/InstagramFetchService.swift:23-43 | an invalid URL fails with `invalidURL` and sends nothing; otherwise one request, and the reply or its mapped error |
| InstagramService.InstagramFetchService.ParseCaption | ios/KinexFit/Services/InstagramFetchService.swift:51-66 | one request with the caption and URL; the reply or its mapped error, a non-API error being `parsingFailed` |
| InstagramService.InstagramFetchService.FetchAndParse | ios/KinexFit/Services/InstagramFetchService.swift:72-110 | fetch failures propagate; non-empty pre-parsed exercises skip the parser request; otherwise the caption is parsed; the result combines both replies |
| InstagramService.MatchTailIsTailOk | ios/KinexFit/Services/InstagramFetchService.swift:11 | the left-to-right tail scan accepts exactly what `.*$` matches |
| InstagramService.PathTestIsPathMatches | ios/KinexFit/Services/InstagramFetchService.swift:11 | the path test accepts exactly what `[\w-]+/?.*$` matches |
| InstagramService.ValidFromParts | ios/KinexFit/Services/InstagramFetchService.swift:117-124 | once scheme, optional "www.", host and kind have been read off the lower-cased URL, it is accepted exactly when the rest passes the path test |
| InstagramService.PatternAccepted | ios/KinexFit/Services/InstagramFetchService.swift:117-124 | every URL the pattern matches, case-insensitively, is accepted |
| InstagramService.AcceptedMatchesPattern | ios/KinexFit/Services/InstagramFetchService.swift:117-124 | every accepted URL is matched by the pattern |
| InstagramService.IsValidInstagramURLMatchesPattern | ios/KinexFit/Services/InstagramFetchService.swift:117-124 | the recogniser accepts exactly the URLs the case-insensitive `instagramURLPattern` (declared on line 11) matches |
| InstagramService.IsValidInstagramURL | ios/KinexFit/Services/InstagramFetchService.swift:117-124 | an accepted URL is at least as long as the shortest the pattern admits, "http://instagr.am/p/x" |
| InstagramService.ReelUrlExample | ios/KinexFit/Services/InstagramFetchService.swift:117-124 | a reel URL in mixed case with a query is accepted |
| InstagramService.OtherHostExample | ios/KinexFit/Services/InstagramFetchService.swift:11 | "instagram.co" is refused |
| InstagramService.MissingIdExample | ios/KinexFit/Services/InstagramFetchService.swift:11 | a URL ending at "/p/" is refused |
| InstagramService.OtherSchemeExample | ios/KinexFit/Services/InstagramFetchService.swift:11 | an "ftp" URL is refused |
| InstagramService.MapAPIErrorRetryable | ios/KinexFit/Services/InstagramFetchService.swift:129-149 | a mapped API error is retryable exactly for statuses other than 401 and 404 and for invalid URL or response; it never asks for an upgrade |
| InstagramService.RateLimitMessageYieldsQuota | ios/KinexFit/Services/InstagramFetchService.swift:154-161 | a message containing "rate limit" yields a quota error, whatever the status |
| InstagramService.RateLimitExample | ios/KinexFit/Services/InstagramFetchService.swift:152-171 | "rate limit exceeded" with 429 is quota 0/100 as written and a rate limit in the corrected mapper |
| InstagramService.RateLimitFirstIsRetryable | ios/KinexFit/Services/InstagramFetchService.swift:152-171 | under the corrected mapper a rate-limit message is retryable and asks for no upgrade; without "quota" or "limit" in the message both mappers agree |
| Onboarding.RawValue | ios/KinexFit/Views/Onboarding/OnboardingCoordinator.swift:20-29 | the raw value is below 8 and names the step's position in `allCases` |
| Onboarding.FromRawValue | ios/KinexFit/Views/Onboarding/OnboardingCoordinator.swift:20-29 | a step exactly for 0..7, with that raw value |
| Onboarding.Title | ios/KinexFit/Views/Onboarding/OnboardingCoordinator.swift:30-41 | a non-empty title for every step |
| Onboarding.Progress | ios/KinexFit/Views/Onboarding/OnboardingCoordinator.swift:43-45 | a fraction above 0 and at most 1 |
| Onboarding.Next | ios/KinexFit/Views/Onboarding/OnboardingCoordinator.swift:50-57 | one raw value up, unchanged at complete |
| Onboarding.Prev | ios/KinexFit/Views/Onboarding/OnboardingCoordinator.swift:59-67 | one raw value down, unchanged at welcome |
| Onboarding.FailureMessage | ios/KinexFit/Views/Onboarding/OnboardingCoordinator.swift:91 | the error text is longer than the error's description it embeds |
| Onboarding.MarkedComplete | ios/KinexFit/Views/Onboarding/OnboardingCoordinator.swift:139-146 | the UPDATE has no WHERE clause, so every row is rewritten and the table size is kept |
| Onboarding.OnboardingViewModel.constructor | ios/KinexFit/Views/Onboarding/OnboardingCoordinator.swift:5-18 | starts at welcome, not submitting, with no error |
| Onboarding.OnboardingViewModel.GoToNext | ios/KinexFit/Views/Onboarding/OnboardingCoordinator.swift:50-57 | the step becomes `Next` of the old step, and only the step changes |
| Onboarding.OnboardingViewModel.GoBack | ios/KinexFit/Views/Onboarding/OnboardingCoordinator.swift:59-67 | the step becomes `Prev` of the old step, and only the step changes |
| Onboarding.OnboardingViewModel.SkipToEnd | ios/KinexFit/Views/Onboarding/OnboardingCoordinator.swift:69-73 | the step becomes complete, and only the step changes |
| Onboarding.OnboardingViewModel.MarkOnboardingComplete | ios/KinexFit/Views/Onboarding/OnboardingCoordinator.swift:139-146 | the table becomes `MarkedComplete` of the old table; the primary keys stay distinct |
| Onboarding.OnboardingViewModel.CompleteOnboarding | ios/KinexFit/Views/Onboarding/OnboardingCoordinator.swift:77-94 | the submission is sent; on either failure the error text is set, submitting is cleared and nothing is written; on success every row is marked, `onComplete` runs once and submitting stays set |
| Onboarding.RawValuesContiguous | ios/KinexFit/Views/Onboarding/OnboardingCoordinator.swift:20-29 | raw values are exactly 0..7, welcome 0 and complete 7, and decoding inverts them |
| Onboarding.TitlesDistinct | ios/KinexFit/Views/Onboarding/OnboardingCoordinator.swift:30-41 | different steps have different titles |
| Onboarding.ProgressIncreasing | ios/KinexFit/Views/Onboarding/OnboardingCoordinator.swift:43-45 | progress grows strictly with the raw value, is 1 exactly at complete and 1/8 at welcome |
| Onboarding.NextThenBack | ios/KinexFit/Views/Onboarding/OnboardingCoordinator.swift:50-67 | next then back restores any step but complete; back then next restores any step but welcome |
| Onboarding.NextReachesComplete | ios/KinexFit/Views/Onboarding/OnboardingCoordinator.swift:50-57 | pressing next as often as steps remain, or more, ends at complete |
| Onboarding.MarkedCompleteFrame | ios/KinexFit/Views/Onboarding/OnboardingCoordinator.swift:141-144 | every row gets `onboardingCompleted` true and the new `updatedAt`, with every other column kept |
| Onboarding.MarkedCompleteKeepsKeys | ios/KinexFit/Views/Onboarding/OnboardingCoordinator.swift:139-146 | marking keeps primary keys distinct, and marking again only moves the timestamp |

## Left out

- Prices (`ProductID.price`) and the StoreKit calls `AppStore.sync` and `Product.products` are left out. Only their place in the recorded order of calls is kept, as "products refreshed".
- The listener is a detached task holding `[weak self]`. Its concurrency and lifetime are not modelled; its body is a loop over a given sequence of events.
- Unicode character classes and case folding are not modelled. Letters, digits and `\w` are ASCII, and case-insensitive matching is ASCII lower-casing.
- PasswordAuth.ValidatePassword: the length rule counts sequence elements, not Swift's grapheme clusters.
- PasswordAuth.IsRequirementMet: `password.count` is a count of sequence elements, not of grapheme clusters, and the character classes are ASCII.
- InstagramModels.ShortContent: the length test and the 97-character prefix count sequence elements, not grapheme clusters. A caption of emoji with skin-tone modifiers is cut earlier than Swift cuts it, and the cut can split a cluster.
- ISO-8601 parsing and formatting are parameters or integers. The day count behind `toISOString` is modelled, but the text after the month is not.
- An invalid `now` date is not modelled.
- Local database and keychain writes always succeed, with two exceptions: account deletion and onboarding completion have explicit failure parameters.
- The `users` table's tier column is "tier" in the column mapping and `subscriptionTier` in the raw SQL updates. The model uses one tier column.
- `User` has no expiry property, so the expiry column lives beside the user in a row.
- `InstagramModels`: `FetchedWorkout`'s random `id`, the parsed `timestamp` with its `Date()` fallback, the capitalised `workoutType`, post stats, rows, structure, AMRAP/EMOM blocks and `workoutV1` are not modelled.
- `mapErrorResponse` is private and never called by the service (InstagramFetchService.swift:152 is its only occurrence), so the finding below is latent in the app as it stands. It is modelled as a function on its own.
- The onboarding request body (the training profile) and the view layer around the view model are not modelled.
- `AuthError`'s declaration is not part of this model; its cases are taken from their uses.
- Logging is not modelled.

## Findings

| source | as written | input that shows it | evidently intended | confidence | as-written member | corrected member |
|---|---|---|---|---|---|---|
| ios/KinexFit/Services/InstagramFetchService.swift:154-161 | the quota test (message contains "quota" or "limit") runs before the rate-limit test, and "rate limit" contains "limit" | message "rate limit exceeded", status 429: reported as quota exceeded 0/100 | a message naming "rate limit" reports `rateLimited` (retryable, no upgrade prompt) | medium, not executed | InstagramService.RateLimitMessageYieldsQuota | InstagramService.MapErrorResponseRateLimitFirst |
