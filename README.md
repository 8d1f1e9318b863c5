# Personalized Learning Platform — a Dafny model of its core

This project models the logic at the centre of the Personalized Learning Platform web
application. It has four parts.

- **Structured error registry.** `src/utils/vercel-errors.ts` is the table of Vercel
  platform error codes. Each code has a status, a category and a message. The model covers
  the lookup with its `UNKNOWN_ERROR` fallback, the membership test, and the views by
  status and by category (`VercelErrors`). It also covers the JSON error envelope
  (`Envelopes`) and its three users:
  - the API handler wrapper (`ApiErrorHandler`);
  - the edge middleware and its path matcher (`Middleware`);
  - the custom error page (`ErrorPage`).
- **Account services over the `users` table.** The table is a map from primary key to row
  (`UsersTable`). Two services act on it:
  - `AuthService` covers registration, login, the reset-token life cycle, profile updates
    and password changes;
  - `UserService` covers the Mongoose user collection (create, find, update, delete) and
    the second, MySQL-backed `userService` object.

  bcrypt, the JWT signer and verifier, the random token, the clock and the mailer are
  parameters. The properties proved include:
  - registration, password reset and password change store only digests; `updateUser` as written does not (see Findings);
  - a reset token works only before its expiry and only once;
  - login errors do not reveal which accounts exist;
  - `updateUser` filters out the key `password`, but it still writes the password column for other spellings such as `Password`.
- **Request validators and handler decisions.**
  - `SignupRequest` is the request body and its falsiness rules.
  - `SignupApi` is `api/auth/signup.ts`, where the first missing field wins.
  - `SignupRoute` is `pages/api/auth/signup.js`, which lists every missing field.
  - `LoginRoute` is `pages/api/auth/login.js`: its status, body and session cookie.
  - `AuthPage` is the sign-in/sign-up page, `Auth.tsx`.
  - `SignupPage` is the stand-alone sign-up page, `SignUp.tsx`.
- **Client-side list operations.**
  - `ResumeBuilder` holds the resume handlers.
  - `Mentorship`, `Blogs`, `Competitions`, `Jobs`, `Learning`, `ProgrammingLanguages`,
    `Interests` and `JobsInternships` hold the page filters, toggles and the stable deadline
    sort.
  - They are built on the JavaScript list idioms in `ListOps` and the string tests in
    `Text`.

How each kind of code is modelled:
- The two stores are classes whose methods carry `modifies` clauses. Each method is proved
  against specification functions.
- The guard loop of `signup` and the error records that `validateForm` fills in step by
  step are methods. Each is proved against a function that states the expected result.
- Code that derives new values is made of functions and lemmas.

## Model

| member | source | states |
|---|---|---|
| ErrorPage.GetInitialProps | src/pages/_error.tsx:29-34 | the status is the response's when there is one, else the error object's, else 404; the code is the error object's truthy `code`, else the response's `x-vercel-error` header |
| ErrorPage.NoCodeDescriptor | src/pages/_error.tsx:11-16 | without a code the page shows `UNKNOWN_ERROR` in category Internal, with the given status unless it is absent or 0, in which case 500 |
| ErrorPage.Descriptor | src/pages/_error.tsx:11-16 | a truthy registered code shows that code's registry entry; a truthy unregistered code shows the registry fallback; no code shows the no-code descriptor |
| ErrorPage.UnknownCodeIgnoresStatus | src/pages/_error.tsx:11 | an unregistered code is shown with status 500 whatever status the props carry |
| ErrorPage.NothingGivenShows404 | src/pages/_error.tsx:11-16 | with neither response nor error object the page shows a 404 `UNKNOWN_ERROR` |
| ErrorPage.ZeroStatusShows500 | src/pages/_error.tsx:13 | a status 0 is shown as 500, like an absent one |
| ErrorPage.FallbacksDiffer | src/pages/_error.tsx:11-16 | the page's no-code descriptor differs from the registry's `UNKNOWN_ERROR` fallback |
| Envelopes.EnvelopeOf | src/utils/api-error-handler.ts:25-32 | the envelope carries the descriptor's code, message, status and category |
| Envelopes.RegisteredUnexpectedIsInRegistry | src/utils/vercel-errors.ts:326-331 | entry 50 of the registry is `INTERNAL_UNEXPECTED_ERROR` with status 500, category Internal |
| Envelopes.FallbackIsNotTheRegistryEntry | src/utils/api-error-handler.ts:37-44 | the fallback envelope has the code, status and category of the registered `INTERNAL_UNEXPECTED_ERROR` but a different message |
| ApiErrorHandler.ExaminedCode | src/utils/api-error-handler.ts:21 | the examined code is the thrown `code` when truthy, else the thrown `message` |
| ApiErrorHandler.CatchReply | src/utils/api-error-handler.ts:19-45 | a registered examined code answers with its registry entry's status and envelope; anything else answers 500 with the fallback envelope; the reply status always equals the envelope's status |
| ApiErrorHandler.WithErrorHandler | src/utils/api-error-handler.ts:16-46 | the wrapper writes a reply exactly when the handler throws, and then the catch reply |
| ApiErrorHandler.KnownCodeIsEchoed | src/utils/api-error-handler.ts:23-32 | the envelope of a registered code names that code |
| ApiErrorHandler.TruthyUnknownCodeWins | src/utils/api-error-handler.ts:21-23 | a truthy unregistered `code` gives the fallback even when `message` is registered |
| ApiErrorHandler.FalsyCodeDefersToMessage | src/utils/api-error-handler.ts:21 | a falsy `code` leaves the decision to `message` alone |
| ApiErrorHandler.ExampleFunctionInvocationFailed | src/utils/api-error-handler.ts:50-55 | the usage example throwing `FUNCTION_INVOCATION_FAILED` as a message answers 500 with that entry's envelope |
| Middleware.Run | src/middleware.ts:5-57 | a failure answers 500 with the fallback envelope; a response whose `x-vercel-error` header names a registered code is replaced by that entry's envelope with its status and the two fixed headers; any other response is forwarded untouched |
| Middleware.NoHeaderForwards | src/middleware.ts:11-13 | without the header the upstream response is forwarded |
| Middleware.UnknownHeaderForwards | src/middleware.ts:13 | a header naming an unregistered code is ignored |
| Middleware.NeverUnknownError | src/middleware.ts:13-34 | the middleware never answers with the `UNKNOWN_ERROR` descriptor, and a replaced response names the header's code |
| Middleware.StartsWithExtends | src/middleware.ts:69 | a prefix of a path is a prefix of every extension of it |
| Middleware.ExclusionIsByPrefix | src/middleware.ts:59-70 | the matcher is a prefix test: a path it skips makes every longer path it starts skipped too; this specifies Middleware.Matches |
| Middleware.OtherFirstCharacterMatches | src/middleware.ts:69 | a path whose first character after `/` is not `a`, `_` or `f` is always matched |
| Middleware.MatchedExamples | src/middleware.ts:69 | `/`, `/dashboard` and `/next/image` are matched |
| Middleware.SkippedExamples | src/middleware.ts:62-69 | `/api/auth/login`, `/_next/static/chunk.js` and a path without leading `/` are skipped, and so are `/apiary` and `/favicon-ico` |
| VercelErrors.Find | src/utils/vercel-errors.ts:412-419 | the descriptor of the first entry stored under a code; none exactly when no entry has that key |
| VercelErrors.Lookup | src/utils/vercel-errors.ts:412-419 | `table[code] \|\| fallback`: a key gives an entry stored under it, a non-key gives the fallback |
| VercelErrors.GetVercelError | src/utils/vercel-errors.ts:412-419 | a registered code gives the descriptor registered under it; any other code gives `UNKNOWN_ERROR` with status 500, category Internal |
| VercelErrors.InternalStatuses | src/utils/vercel-errors.ts:277-409 | every Internal entry has status 500; none has status 200 or 508; none is stored under `UNKNOWN_ERROR` |
| VercelErrors.InternalKeys | src/utils/vercel-errors.ts:277-409 | the Internal keys are distinct and appear in no other section |
| VercelErrors.RegistryKeysDistinct | src/utils/vercel-errors.ts:8-410 | no two of the 64 entries share a key, so the object literal is a faithful dictionary |
| VercelErrors.RegistryKeyedByCode | src/utils/vercel-errors.ts:8-410 | every entry is stored under its own `code` |
| VercelErrors.UnknownCodeNotRegistered | src/utils/vercel-errors.ts:412-423 | the fallback code `UNKNOWN_ERROR` is not itself a key |
| VercelErrors.LookupRegistered | src/utils/vercel-errors.ts:412-423 | the key of every entry is registered, and looking it up gives that entry's descriptor |
| VercelErrors.LookupKeepsCode | src/utils/vercel-errors.ts:412-419 | a registered code gives a descriptor carrying that same code |
| VercelErrors.IsVercelErrorIffNotFallback | src/utils/vercel-errors.ts:412-423 | `isVercelError(code)` holds exactly when `getVercelError(code)` does not fall back; this specifies VercelErrors.IsVercelError |
| VercelErrors.CategoryView | src/utils/vercel-errors.ts:429-431 | `getErrorsByCategory(c)` is exactly the descriptors of c's section, in declaration order; this specifies VercelErrors.GetErrorsByCategory |
| VercelErrors.CategoriesPartitionValues | src/utils/vercel-errors.ts:429-431 | the nine category views, concatenated in category order, are `Object.values` |
| VercelErrors.InternalErrorsAre500 | src/utils/vercel-errors.ts:277-409 | every descriptor of the Internal category has status 500 |
| VercelErrors.ByStatusCodeSpec | src/utils/vercel-errors.ts:425-427 | `getErrorByStatusCode(s)` is an ordered selection of the values, all with status s, holding each value of status s as often as the values do; this specifies VercelErrors.GetErrorByStatusCode |
| VercelErrors.NoErrorHasStatus200 | src/utils/vercel-errors.ts:425-427 | no registered error has status 200 |
| VercelErrors.RuntimeDescriptors | src/utils/vercel-errors.ts:121-127 | the Runtime section holds one descriptor, `INFINITE_LOOP_DETECTED` with status 508 |
| VercelErrors.LoopDetectedIsOnly508 | src/utils/vercel-errors.ts:425-427 | status 508 selects exactly the infinite-loop descriptor |
| VercelErrors.LoopDetectedIsOnlyRuntime | src/utils/vercel-errors.ts:429-431 | the Runtime category holds exactly the infinite-loop descriptor |
| UsersTable.FirstWhere | learning-platform/src/services/authService.ts:93-102 | `SELECT ... WHERE p` then `rows[0]`: none exactly when no row matches; otherwise a matching row, taken to be the one with the smallest key |
| UsersTable.DropLeadingBlanks | learning-platform/src/services/authService.ts:218-227 | a suffix of the key, cut after blanks only, that does not start with a blank |
| UsersTable.DropTrailingBlanks | learning-platform/src/services/authService.ts:218-227 | a prefix of the key, cut before blanks only, that does not end with a blank |
| UsersTable.ColumnOf | learning-platform/src/services/authService.ts:218-227 | the key pasted before ` = ?` names a column exactly when its trimmed lower-case text is one, and then names that column |
| UsersTable.PlainNameResolves | learning-platform/src/services/authService.ts:218-227 | a lower-case key without blanks names itself when it is a column and no column otherwise |
| UsersTable.ResolvesTo | learning-platform/src/services/authService.ts:218-227 | a key whose trimmed lower-case text is a column names that column |
| UsersTable.SameNameSameColumn | learning-platform/src/services/authService.ts:218-227 | keys that read as the same identifier name the same column |
| UsersTable.DropLeadingPrefix | learning-platform/src/services/authService.ts:218-227 | blanks in front of a key that starts with a non-blank are all cut, and nothing more |
| UsersTable.DropTrailingSuffix | learning-platform/src/services/authService.ts:218-227 | blanks after a key that ends with a non-blank are all cut, and nothing more |
| UsersTable.BlanksAroundIgnored | learning-platform/src/services/authService.ts:218-227 | blanks around a key do not change the identifier MySQL reads from it |
| UsersTable.CapitalisedPasswordResolves | learning-platform/src/services/authService.ts:217-227 | the key `Password`, which the filter lets through, names the `password` column |
| UsersTable.PaddedPasswordResolves | learning-platform/src/services/authService.ts:217-227 | the key `password ` with a trailing blank, which the filter lets through, names the `password` column |
| UsersTable.Table.Insert | learning-platform/src/services/authService.ts:54-81 | the row is stored under the next `AUTO_INCREMENT` key, which was free, and the counter moves past it |
| UsersTable.Table.SetColumns | learning-platform/src/services/authService.ts:141-144 | `UPDATE ... WHERE id = ?` overwrites the named columns of that row and nothing else; an unknown key changes nothing |
| AuthService.OrNull | learning-platform/src/services/authService.ts:71-73 | `value \|\| null`: an absent or empty optional text is stored as `NULL`, anything else as itself |
| AuthService.RegisteredRow | learning-platform/src/services/authService.ts:54-76 | the inserted row names no `id` column, so the key comes from `AUTO_INCREMENT` |
| AuthService.RegisteredRowHidesPassword | learning-platform/src/services/authService.ts:51-65 | the stored password is the bcrypt digest, and two passwords with the same digest give the same row |
| AuthService.RegisterUser | learning-platform/src/services/authService.ts:48-88 | the new row gets a fresh key, holds the digest of the password, and is what is returned; a table of digests stays one |
| AuthService.SelectByEmail | learning-platform/src/services/authService.ts:93-102 | the email query selects the first row with that email, and nothing exactly when no row has it |
| AuthService.LoginUser | learning-platform/src/services/authService.ts:90-122 | success only for the first row with the email when bcrypt accepts the password, with a token signed over the id and email for 24h; every failure is 'Invalid email or password' |
| AuthService.LoginGivesNoEnumerationSignal | learning-platform/src/services/authService.ts:98-108 | an unknown email and a wrong password give the very same failure |
| AuthService.IssueResetToken | learning-platform/src/services/authService.ts:141-144 | the row gets the token and expiry; no other column and no other row changes |
| AuthService.RequestPasswordReset | learning-platform/src/services/authService.ts:124-163 | an unknown email returns with no write and no mail; a known one stores the token with an expiry one hour from now and mails the reset link to that email |
| AuthService.CompleteReset | learning-platform/src/services/authService.ts:180-183 | the row gets the new digest and its token and expiry become `NULL`; nothing else changes |
| AuthService.ResetPassword | learning-platform/src/services/authService.ts:165-188 | a row holding the token with an expiry after now gets the new digest and loses the token; otherwise 'Invalid or expired reset token' and no write; this specifies AuthService.ByLiveResetToken |
| AuthService.IssuedTokenLivesOneHour | learning-platform/src/services/authService.ts:137-143 | an issued token is accepted exactly while now is before issue time plus one hour |
| AuthService.ResetTokenSingleUse | learning-platform/src/services/authService.ts:168-183 | after a completed reset the same token is refused at any later time |
| AuthService.ResetPasswordLogsIn | learning-platform/src/services/authService.ts:165-188 | after a reset the new password logs in, when bcrypt accepts a password against its own digest |
| AuthService.VerifyToken | learning-platform/src/services/authService.ts:190-196 | the verifier's claims, and 'Invalid token' exactly when it rejects |
| AuthService.LoginTokenVerifies | learning-platform/src/services/authService.ts:110-117 | a login token verifies to the user's id and email when the verifier inverts the signer |
| AuthService.GetUserById | learning-platform/src/services/authService.ts:198-209 | the row with that key, and null exactly when there is none |
| AuthService.Kept | learning-platform/src/services/authService.ts:216-221 | every entry the filter lets through passes it and comes from `userData`, and every entry of `userData` that passes is let through |
| AuthService.KeptKeys | learning-platform/src/services/authService.ts:216-218 | one key per entry let through, each passing the filter with its value |
| AuthService.KeptValues | learning-platform/src/services/authService.ts:216-219 | one value per entry let through, the defined value of that entry |
| AuthService.KeptKeysOmitPassword | learning-platform/src/services/authService.ts:217 | as written, the key spelled exactly `password` never reaches the `SET` list; this specifies AuthService.Writable |
| AuthService.FixedKeysOmitPasswordColumn | learning-platform/src/services/authService.ts:217 | with the corrected filter, no key in the `SET` list names the `password` column; this specifies AuthService.WritableFixed |
| AuthService.KeptStep | learning-platform/src/services/authService.ts:216-221 | one more entry adds itself to what is written exactly when it is writable |
| AuthService.CollectUpdates | learning-platform/src/services/authService.ts:213-221 | the loop collects exactly the keys and values of the writable entries, in order |
| AuthService.Resolve | learning-platform/src/services/authService.ts:218-229 | each key of the `SET` list resolves to a column of the table, named by the key's trimmed lower-case text, or to none |
| AuthService.Named | learning-platform/src/services/authService.ts:226-229 | the columns of a `SET` list whose keys all name one, position by position |
| AuthService.SparedListSkipsPassword | learning-platform/src/services/authService.ts:226-229 | a `SET` list none of whose keys names `password` assigns nothing to that column |
| AuthService.Apply | learning-platform/src/services/authService.ts:226-229 | `SET` changes only the named columns and adds them to the row |
| AuthService.ApplyLastWins | learning-platform/src/services/authService.ts:226-229 | a column gets the value of its last assignment in the `SET` list |
| AuthService.Execute | learning-platform/src/services/authService.ts:225-231 | an unknown column fails with no change; any failure leaves the table and counter; a success replies with the row re-read by `id`; other rows keep their contents; the row that changed is the old row with the `SET` list applied; without an `id` column the table is the old one with that row replaced |
| AuthService.ExecuteKeepsPassword | learning-platform/src/services/authService.ts:225-231 | a statement whose keys spare the `password` column leaves the changed row's password as it was |
| AuthService.Update | learning-platform/src/services/authService.ts:211-231 | nothing let through gives null and no statement; otherwise the outcome of the statement built from what was let through |
| AuthService.CapitalisedKeyKept | learning-platform/src/services/authService.ts:216-221 | the filter lets the entry `Password: x` through with its key and value |
| AuthService.ResolveSingle | learning-platform/src/services/authService.ts:226-229 | a one-key `SET` list resolves to that key's column |
| AuthService.ExecuteSetsPassword | learning-platform/src/services/authService.ts:225-231 | `SET password = ?` on a row without an `id` column succeeds and stores the value as the password |
| AuthService.CapitalisedKeyStoresPlainText | learning-platform/src/services/authService.ts:211-231 | as written, `updateUser(id, {Password: x})` succeeds and leaves the plain text `x` in the `password` column |
| AuthService.FixedListSparesPassword | learning-platform/src/services/authService.ts:217 | with the corrected filter, the resolved `SET` list spares the `password` column |
| AuthService.UpdateOutcomeFixedKeepsDigests | learning-platform/src/services/authService.ts:211-236 | with the corrected filter, a table of digests stays one and the changed row keeps its old password; this specifies AuthService.UpdateOutcomeFixed |
| AuthService.UpdateOutcomeKeepsDigests | learning-platform/src/services/authService.ts:211-236 | as written, a table of digests stays one when no key let through names the `password` column |
| AuthService.ExecuteUpdate | learning-platform/src/services/authService.ts:225-231 | the method's reply, table and counter are those of the statement function |
| AuthService.UpdateUser | learning-platform/src/services/authService.ts:211-236 | the method's reply, table and counter are those of `updateUser` as written; this specifies AuthService.UpdateOutcome |
| AuthService.WithPassword | learning-platform/src/services/authService.ts:247-250 | only the row's `password` column changes, to the new digest |
| AuthService.ChangePassword | learning-platform/src/services/authService.ts:238-257 | 'User not found' or 'Invalid current password' leave the table as it was; otherwise the new digest is stored and true returned |
| AuthService.ChangedPasswordLogsIn | learning-platform/src/services/authService.ts:238-257 | after a change the new password logs in and the old one does not, for a bcrypt that tells the digests apart |
| UserService.FindByEmail | learning-platform/src/services/userService.ts:18 | `findOne({email})`: the position of the first document with the email, and none exactly when no document has it |
| UserService.UserCollection.constructor | learning-platform/src/services/userService.ts:15-73 | the collection starts empty |
| UserService.UserCollection.CreateUser | learning-platform/src/services/userService.ts:15-30 | an email already present is refused with no change; otherwise the document is appended and returned |
| UserService.UserCollection.GetUserByEmail | learning-platform/src/services/userService.ts:32-43 | 'User not found' exactly when no document has the email; otherwise a stored document with that email |
| UserService.UserCollection.UpdateUser | learning-platform/src/services/userService.ts:45-60 | `$set` on the first document with the email, which is returned updated; 'User not found' with no change otherwise |
| UserService.UserCollection.DeleteUser | learning-platform/src/services/userService.ts:62-73 | the first document with the email is removed and returned, the others keep their order; 'User not found' with no change otherwise |
| UserService.CreatedIsFound | learning-platform/src/services/userService.ts:15-43 | a document saved by `createUser` is what `getUserByEmail` finds next for its email |
| UserService.DeleteRemovesOne | learning-platform/src/services/userService.ts:62-73 | deleting drops exactly one document and keeps the others |
| UserService.Login | learning-platform/src/services/userService.ts:76-97 | the first row with the email when bcrypt accepts the password, null otherwise |
| UserService.LoginAgreesWithAuthService | learning-platform/src/services/userService.ts:76-97 | this login and the auth service's accept the same credentials and return the same row |
| UserService.RegisteredRow | learning-platform/src/services/userService.ts:115-133 | the inserted row names no `id` column |
| UserService.Published | learning-platform/src/services/userService.ts:135-139 | the answer carries the new id and every given field except the password |
| UserService.RegisteredRowHidesPassword | learning-platform/src/services/userService.ts:113-122 | the stored password is the digest, and the row depends on the password only through it |
| UserService.Register | learning-platform/src/services/userService.ts:99-143 | the row with the digest is stored under a fresh key, and the answer is that key with the given fields |
| UserService.RegisteredIsFound | learning-platform/src/services/userService.ts:196-207 | reading back the key `register` answered with gives the inserted row, whose email, course and digest agree with the answer; other keys read as before |
| UserService.IssueResetToken | learning-platform/src/services/userService.ts:160-163 | the row gets `reset_token` and its expiry; nothing else changes |
| UserService.ResetPassword | learning-platform/src/services/userService.ts:145-169 | 'User not found' with no write for an unknown email; otherwise the token is stored with a one-hour expiry and returned |
| UserService.CompleteReset | learning-platform/src/services/userService.ts:185-188 | the row gets the new digest and loses its token and expiry; nothing else changes |
| UserService.UpdatePassword | learning-platform/src/services/userService.ts:171-194 | a live token's row gets the new digest and loses the token, answering true; otherwise 'Invalid or expired reset token' and no write; this specifies UserService.ByLiveResetToken |
| UserService.IssuedTokenLivesOneHour | learning-platform/src/services/userService.ts:157-174 | an issued token is accepted exactly while now is before issue time plus one hour |
| UserService.ResetTokenSingleUse | learning-platform/src/services/userService.ts:174-188 | after `updatePassword` the same token is refused at any later time |
| UserService.TokensDoNotCrossServices | learning-platform/src/services/userService.ts:160-163 | a token issued here is refused by the auth service's reset, which reads other columns |
| SignupRequest.EveryFieldRequired | learning-platform/src/api/auth/signup.ts:18-30 | every field of the request is in the required list |
| SignupRequest.CompleteIsAllPresent | learning-platform/src/api/auth/signup.ts:32-36 | a request passes the required check exactly when every field is truthy |
| SignupRequest.MissingIsExact | learning-platform/src/pages/api/auth/signup.js:27 | the missing list holds exactly the fields that are not truthy, and is empty exactly when the request is complete |
| SignupRequest.MissingInOrder | learning-platform/src/pages/api/auth/signup.js:27 | the missing fields are listed in the order of the required list |
| SignupRequest.FirstMissingIsHead | learning-platform/src/api/auth/signup.ts:32-36 | the first field reported missing is the first non-truthy field of the list |
| SignupRequest.ZeroMarksAreMissing | learning-platform/src/api/auth/signup.ts:33 | tenth marks of 0 count as not given, so that field is reported missing |
| SignupRequest.RangeError | learning-platform/src/api/auth/signup.ts:49-60 | no error exactly when tenth and twelfth marks are in [0, 100], CPI in [0, 10] and year of study in [1, 4]; otherwise the message of the first range that fails |
| SignupRequest.AsRegistration | learning-platform/src/api/auth/signup.ts:62 | `register` receives every field of a complete request unchanged |
| SignupApi.SignupError | learning-platform/src/api/auth/signup.ts:17-60 | no error exactly when the request is complete, the password has at least 6 characters, the phone is ten digits and the ranges hold; otherwise the first failing check's message, naming the first missing field |
| SignupApi.FirstMissing | learning-platform/src/api/auth/signup.ts:32-36 | the loop finds nothing exactly when the request is complete, and otherwise the first missing field |
| SignupApi.ZeroMarksReportedAsRequired | learning-platform/src/api/auth/signup.ts:32-50 | tenth marks of 0 are rejected as a missing field, never by the range check |
| SignupApi.FirstFalsyFieldIsNamed | learning-platform/src/api/auth/signup.ts:32-36 | when the fields before field i are given and field i is not, the error names field i |
| SignupApi.SignupStoresDigest | learning-platform/src/api/auth/signup.ts:62 | a registered request stores the password only as its digest |
| SignupApi.Signup | learning-platform/src/api/auth/signup.ts:16-70 | a request fails exactly when a check fails, with that check's message and the table unchanged; otherwise one row is inserted under the next key, holding the registered fields with the password as its digest, and that key is returned |
| SignupRoute.Names | learning-platform/src/pages/api/auth/signup.js:30 | the keys of the missing fields, one per field, in order |
| SignupRoute.RequestError | learning-platform/src/pages/api/auth/signup.js:27-73 | no error exactly when the body is complete, the password has at least 6 characters, the phone is ten digits and the ranges hold; missing fields are all listed, joined by commas; then the short-password message, then the phone message, then the first range message |
| SignupRoute.FailureMessage | learning-platform/src/pages/api/auth/signup.js:84 | `error.message \|\| 'Failed to register user'` is never empty and keeps a non-empty message |
| SignupRoute.Handle | learning-platform/src/pages/api/auth/signup.js:4-87 | a non-POST gets 405; a failing check gets 400 with its message; a body that passes gets 201 with the registered user exactly when `register` succeeds, and 500 with `error.message \|\| 'Failed to register user'` when it throws |
| SignupRoute.RouteAgreesWithApi | learning-platform/src/pages/api/auth/signup.js:27-73 | the route and `signup.ts` accept the same bodies; where `signup.ts` names one missing field, the route's list starts with it |
| SignupRoute.JoinStartsWithHead | learning-platform/src/pages/api/auth/signup.js:30 | a comma-joined list starts with its first element |
| LoginRoute.Decimal | learning-platform/src/pages/api/auth/login.js:27 | the numeral printed in the template is non-empty digits with no leading zero |
| LoginRoute.DecimalReadsBack | learning-platform/src/pages/api/auth/login.js:27 | the printed numeral reads back as the number |
| LoginRoute.CookieIsExact | learning-platform/src/pages/api/auth/login.js:27 | the cookie is the token followed by the fixed attributes, with `Max-Age=86400` |
| LoginRoute.ErrorMessage | learning-platform/src/pages/api/auth/login.js:40 | `error.message \|\| 'Invalid credentials'` is never empty and keeps a non-empty message |
| LoginRoute.View | learning-platform/src/pages/api/auth/login.js:31-36 | the response names the user by id, email and the two name columns |
| LoginRoute.Handle | learning-platform/src/pages/api/auth/login.js:5-42 | a non-POST gets 405; missing credentials get 400; a null user gets 401 from reading its `id`; a callee error gets 401 with its message; a found user whose token is signed gets 200 with the cookie and the user view, and a signing error gets 401 with its message; only 200 sets the cookie |
| LoginRoute.NoEnumerationSignal | learning-platform/src/pages/api/auth/login.js:17-40 | with `userService.login` as the callee, an unknown email and a wrong password get the same 401 |
| AuthPage.HandleInputChange | learning-platform/src/pages/Auth.tsx:155-162 | a keystroke writes the sign-in form in sign-in mode and the sign-up form otherwise; the other form and every other input are unchanged |
| AuthPage.EmailError | learning-platform/src/pages/Auth.tsx:55-59 | the email check records nothing exactly when the email is non-empty and matches `\S+@\S+\.\S+` |
| AuthPage.PasswordError | learning-platform/src/pages/Auth.tsx:61-65 | the password check records nothing exactly when the password has at least 6 characters |
| AuthPage.RequiredErrors | learning-platform/src/pages/Auth.tsx:42-52 | the loop records exactly the failing required checks, in check order |
| AuthPage.ValidateForm | learning-platform/src/pages/Auth.tsx:39-73 | the form is valid exactly when no check records an error, and the error shown is the first recorded message |
| AuthPage.FormErrorsExact | learning-platform/src/pages/Auth.tsx:39-73 | the form passes exactly when the email and password pass and, in sign-up mode, every required input is filled and the confirmation matches; this specifies AuthPage.FormErrors |
| AuthPage.SignInChecksOnlyCredentials | learning-platform/src/pages/Auth.tsx:42-69 | in sign-in mode only the email and password entries can be recorded |
| AuthPage.HandleSubmit | learning-platform/src/pages/Auth.tsx:75-117 | a submission is blocked exactly when the sign-up form fails validation in the current mode, showing the first message; otherwise sign-in sends the sign-in form and sign-up sends the sign-up form |
| AuthPage.SignInTypingKeepsForm | learning-platform/src/pages/Auth.tsx:155-162 | typing in sign-in mode never changes the sign-up form or the mode |
| AuthPage.SignInAlwaysBlocked | learning-platform/src/pages/Auth.tsx:55-56 | from the opening state, whatever is typed, a sign-in submission is blocked with 'Email is required' |
| AuthPage.InitialFormEmpty | learning-platform/src/pages/Auth.tsx:12-28 | the opening sign-up form has an empty email |
| AuthPage.HandleSubmitFixed | learning-platform/src/pages/Auth.tsx:75-117 | the corrected submission validates the form the current mode types into, and otherwise sends what the original sends |
| AuthPage.FixedSignInSendsTyped | learning-platform/src/pages/Auth.tsx:85-89 | with the correction, typing a well-formed email and a long enough password signs in with exactly them |
| AuthPage.FixOnlyAffectsSignIn | learning-platform/src/pages/Auth.tsx:92-117 | the corrected and original submissions agree in sign-up mode |
| AuthPage.HandleForgotPassword | learning-platform/src/pages/Auth.tsx:125-153 | a reset is requested exactly for a non-empty email matching the pattern, with that email; otherwise 'Email is required' or 'Invalid email format' |
| AuthPage.ForgotAndSignInAgree | learning-platform/src/pages/Auth.tsx:55-59 | the forgot-password form and the sign-in email check accept the same emails, with different wording for a malformed one |
| SignupPage.Assign | learning-platform/src/pages/SignUp.tsx:122-125 | `{...errors, [name]: message}` sets that input's entry and keeps every other |
| SignupPage.RequiredChecks | learning-platform/src/pages/SignUp.tsx:58-61 | on a fresh record, the first name, last name, email and course get their required messages exactly when empty; no other entry is set |
| SignupPage.FormatChecks | learning-platform/src/pages/SignUp.tsx:64-73 | the phone entry gets its required or ten-digits message; a non-empty malformed email overwrites the email entry; nothing else changes |
| SignupPage.RangeChecks | learning-platform/src/pages/SignUp.tsx:76-86 | each marks input and the CGPA get their range message when non-empty and numerically outside the range; nothing else changes |
| SignupPage.ValidateForm | learning-platform/src/pages/SignUp.tsx:54-89 | the record holds for each input the message of the last check it failed, and nothing for an input that passed |
| SignupPage.ExpectedExact | learning-platform/src/pages/SignUp.tsx:54-89 | every recorded message is non-empty, and the record is empty exactly when the form is acceptable; this specifies SignupPage.Expected |
| SignupPage.NoKeysIsEmpty | learning-platform/src/pages/SignUp.tsx:98 | a record has no keys exactly when it is `{}` |
| SignupPage.HandleSubmit | learning-platform/src/pages/SignUp.tsx:91-112 | the shown errors are the fresh record, and the submission goes ahead exactly when it has no keys, which is exactly when the form is acceptable |
| SignupPage.AcceptsWellFormed | learning-platform/src/pages/SignUp.tsx:54-89 | a filled form with `a@b.c` and ten digits goes ahead; the same form with `a@b@c.d` does not |
| SignupPage.HandleInputChange | learning-platform/src/pages/SignUp.tsx:114-127 | the text is stored, the input's shown error becomes `''`, and every other input and error is unchanged |
| SignupPage.TypingHidesOwnError | learning-platform/src/pages/SignUp.tsx:120-126 | after typing into an input no error is shown for it |
| SignupPage.ClearedErrorsKeepKeys | learning-platform/src/pages/SignUp.tsx:120-126 | a cleared error keeps its key, so typing never empties a record that has keys |
| ResumeBuilder.NewExperience | learning-platform/src/pages/ResumeBuilder.tsx:85-92 | a new experience entry carries the given id and the five other fields, all empty |
| ResumeBuilder.NewEducation | learning-platform/src/pages/ResumeBuilder.tsx:102-109 | a new education entry carries the given id and the five other fields, all empty |
| ResumeBuilder.UpdateWithId | learning-platform/src/pages/ResumeBuilder.tsx:134-136 | the list keeps its length; every entry with the id gets the field set to the value, every other entry is unchanged |
| ResumeBuilder.RemoveWithId | learning-platform/src/pages/ResumeBuilder.tsx:159 | no kept entry has the id, every kept entry is from the list, and every entry without the id is kept |
| ResumeBuilder.UpdateAt | learning-platform/src/pages/ResumeBuilder.tsx:152 | the list keeps its length; the indexed skill becomes the value when in range, every other skill is unchanged |
| ResumeBuilder.RemoveAt | learning-platform/src/pages/ResumeBuilder.tsx:173 | an in-range index drops exactly that skill; an out-of-range index leaves the list alone |
| ResumeBuilder.AddExperience | learning-platform/src/pages/ResumeBuilder.tsx:80-95 | the experience list grows by one new empty entry at the end; the other sections are unchanged |
| ResumeBuilder.AddEducation | learning-platform/src/pages/ResumeBuilder.tsx:97-112 | the education list grows by one new empty entry at the end; the other sections are unchanged |
| ResumeBuilder.AddSkill | learning-platform/src/pages/ResumeBuilder.tsx:114-119 | the skill list grows by one empty skill at the end; the other sections are unchanged |
| ResumeBuilder.UpdatePersonalInfo | learning-platform/src/pages/ResumeBuilder.tsx:121-129 | the named personal field reads back the value; every other personal field and every other section is unchanged |
| ResumeBuilder.UpdateExperience | learning-platform/src/pages/ResumeBuilder.tsx:131-138 | only the experience section changes, by an update of the entries with the id |
| ResumeBuilder.UpdateEducation | learning-platform/src/pages/ResumeBuilder.tsx:140-147 | only the education section changes, by an update of the entries with the id |
| ResumeBuilder.UpdateSkill | learning-platform/src/pages/ResumeBuilder.tsx:149-154 | only the skill list changes, at the given index |
| ResumeBuilder.RemoveExperience | learning-platform/src/pages/ResumeBuilder.tsx:156-161 | only the experience section changes, by dropping the entries with the id |
| ResumeBuilder.RemoveEducation | learning-platform/src/pages/ResumeBuilder.tsx:163-168 | only the education section changes, by dropping the entries with the id |
| ResumeBuilder.RemoveSkill | learning-platform/src/pages/ResumeBuilder.tsx:170-175 | only the skill list changes, by dropping the given index |
| ResumeBuilder.RemoveKeepsOrder | learning-platform/src/pages/ResumeBuilder.tsx:156-168 | removal keeps the surviving entries in their order and with their multiplicities |
| ResumeBuilder.AddThenRemoveExperience | learning-platform/src/pages/ResumeBuilder.tsx:80-95 | adding an experience under a fresh id and removing that id restores the resume |
| ResumeBuilder.AddThenRemoveEducation | learning-platform/src/pages/ResumeBuilder.tsx:97-112 | adding an education entry under a fresh id and removing that id restores the resume |
| ResumeBuilder.AddThenRemoveSkill | learning-platform/src/pages/ResumeBuilder.tsx:114-119 | adding a skill and removing the last index restores the resume |
| ResumeBuilder.UpdateReadsBack | learning-platform/src/pages/ResumeBuilder.tsx:131-147 | an updated field reads back its value, and a second update of that field replaces the first |
| ResumeBuilder.SharedIdActsOnBoth | learning-platform/src/pages/ResumeBuilder.tsx:86 | two entries sharing an id (added in the same millisecond) are both updated and both removed together |
| ResumeBuilder.UpdateSkillBounds | learning-platform/src/pages/ResumeBuilder.tsx:149-154 | an out-of-range index leaves the skills unchanged; an in-range one replaces that skill only |
| ResumeBuilder.RemoveSkillShortens | learning-platform/src/pages/ResumeBuilder.tsx:170-175 | removing an in-range skill shortens the list by one and removes exactly that element from the multiset |
| Mentorship.ExpertiseLists | learning-platform/src/pages/Mentorship.tsx:118 | one expertise list per mentor, in mentor order |
| Mentorship.ExpertiseOptionsExact | learning-platform/src/pages/Mentorship.tsx:117-119 | the chips hold no duplicate and a chip is offered exactly when some mentor has that expertise; this specifies Mentorship.ExpertiseOptions |
| Mentorship.FilteredMentorsExact | learning-platform/src/pages/Mentorship.tsx:121-130 | the shown mentors keep list order, and a mentor is shown exactly when it matches the search (name, role or company, ignoring case) and has every selected expertise; this specifies Mentorship.FilteredMentors |
| Mentorship.NoFilterShowsAll | learning-platform/src/pages/Mentorship.tsx:122-127 | an empty query with no chip selected shows every mentor |
| Mentorship.SelectingNarrows | learning-platform/src/pages/Mentorship.tsx:189-194 | toggling on a new chip keeps exactly the shown mentors that have that expertise, and toggling it off again restores the earlier list |
| Mentorship.SessionFeedback | learning-platform/src/pages/Mentorship.tsx:153-161 | every session with the id gets the rating and feedback; the other sessions are unchanged; the count is kept |
| Mentorship.FeedbackTouchesOnlyRatings | learning-platform/src/pages/Mentorship.tsx:153-161 | feedback changes no field but rating and feedback, and feedback given again replaces the earlier feedback |
| Mentorship.HandleBooking | learning-platform/src/pages/Mentorship.tsx:132-134 | the mentor is picked; the typed date and time are kept |
| Mentorship.HandleSubmitBooking | learning-platform/src/pages/Mentorship.tsx:136-146 | after submitting, no mentor is picked and the date and time are empty |
| Mentorship.SubmitForgetsBooking | learning-platform/src/pages/Mentorship.tsx:132-146 | picking a mentor and submitting leaves the booking form as it started |
| Blogs.CategoryList | learning-platform/src/pages/Blogs.tsx:89 | one category per post, in post order |
| Blogs.TagLists | learning-platform/src/pages/Blogs.tsx:90 | one tag list per post, in post order |
| Blogs.ChipsExact | learning-platform/src/pages/Blogs.tsx:89-90 | the category and tag chips hold no duplicates; a category chip is offered exactly when some post has it, a tag chip exactly when some post carries it; this specifies Blogs.Categories and Blogs.Tags |
| Blogs.FilteredPostsExact | learning-platform/src/pages/Blogs.tsx:97-105 | the shown posts keep list order, and a post is shown exactly when it matches the category, carries every selected tag and matches the search (title, excerpt or author, ignoring case); this specifies Blogs.FilteredPosts |
| Blogs.InitialShowsAll | learning-platform/src/pages/Blogs.tsx:93-95 | with no category, no tag and an empty query, every post is shown |
| Blogs.CategorySelects | learning-platform/src/pages/Blogs.tsx:98 | with a category selected, every shown post has it, and every post of that category that passes the other filters is shown |
| Blogs.SelectingTagNarrows | learning-platform/src/pages/Blogs.tsx:159-165 | toggling on a new tag keeps exactly the shown posts with that tag, and toggling it off again restores the earlier list |
| Competitions.FilteredExact | learning-platform/src/pages/Competitions.tsx:81-88 | the shown competitions keep list order, and one is shown exactly when it matches the difficulty, the status and the search (title, description or a tag, ignoring case); this specifies Competitions.Filtered |
| Competitions.SelectorsSelect | learning-platform/src/pages/Competitions.tsx:82-83 | a difficulty other than "All" shows only that difficulty; a status other than "All" shows only that status |
| Competitions.NoFilterShowsAll | learning-platform/src/pages/Competitions.tsx:77-79 | "All", "All" and an empty query show every competition |
| Competitions.InitialShowsThree | learning-platform/src/pages/Competitions.tsx:28-71 | the page opens showing all three listed competitions |
| Jobs.InsertAdds | learning-platform/src/pages/Jobs.tsx:86-91 | inserting a job into a list adds exactly that job |
| Jobs.InsertSorted | learning-platform/src/pages/Jobs.tsx:86-91 | inserting into a list sorted by the key keeps it sorted |
| Jobs.SortCorrect | learning-platform/src/pages/Jobs.tsx:86-91 | the sort returns a permutation of its input, in key order; this specifies Jobs.Sort |
| Jobs.FilteredJobs | learning-platform/src/pages/Jobs.tsx:75-91 | the result holds exactly the filtered jobs, and under the "deadline" order it is sorted by deadline |
| Jobs.FilteredExact | learning-platform/src/pages/Jobs.tsx:76-85 | the filter keeps list order, a job passes exactly when it matches the search (title, company, description or a skill, ignoring case), the type and the work type, and a location other than "All" shows only that work type; this specifies Jobs.Filtered |
| Jobs.InsertKeepsKeyClass | learning-platform/src/pages/Jobs.tsx:86-91 | inserting a job puts it before every job with the same key and leaves the order of each key's jobs as it was |
| Jobs.SortIsStable | learning-platform/src/pages/Jobs.tsx:86-91 | the sort is stable: for every key, the jobs with that key come out in the order they went in |
| Jobs.EqualKeysKeepOrder | learning-platform/src/pages/Jobs.tsx:90 | a comparator that returns 0 for every pair leaves the list as it is |
| Jobs.OtherOrderKeepsFilterOrder | learning-platform/src/pages/Jobs.tsx:86-91 | any order other than "deadline" shows the jobs in the filter's order |
| Jobs.NoFilterKeepsAll | learning-platform/src/pages/Jobs.tsx:70-72 | an empty query with "All" type and location keeps every job |
| Jobs.SortCons | learning-platform/src/pages/Jobs.tsx:86-91 | sorting a list headed by a job inserts that job into the sorted rest |
| Jobs.InsertStep | learning-platform/src/pages/Jobs.tsx:86-91 | a job with a key no larger than the head goes in front; otherwise it goes past the head |
| Jobs.SortFour | learning-platform/src/pages/Jobs.tsx:86-91 | four jobs whose keys rank second, third, first and fourth come out in key order |
| Jobs.InitialOrder | learning-platform/src/pages/Jobs.tsx:18-73 | the page opens listing all four jobs by deadline: Frontend Developer, Software Engineer, Data Scientist, DevOps Engineer |
| Learning.FilteredExact | learning-platform/src/pages/Learning.tsx:67-72 | the shown resources keep list order; a resource is shown exactly when its title or description contains the query (ignoring case) and its category is "All" or the selected one; this specifies Learning.Filtered |
| Learning.EmptyQueryIsCategory | learning-platform/src/pages/Learning.tsx:68-70 | with an empty query, the category alone decides |
| Learning.InitialShowsSix | learning-platform/src/pages/Learning.tsx:18-65 | the page opens showing all six resources |
| Learning.ProgrammingShowsTwo | learning-platform/src/pages/Learning.tsx:54-60 | the "Programming" category shows Programming Languages and Progress Tracking, in that order |
| ProgrammingLanguages.Basics | learning-platform/src/pages/ProgrammingLanguages.tsx:42-44 | the first topic of a language has the id "basics" |
| ProgrammingLanguages.Advanced | learning-platform/src/pages/ProgrammingLanguages.tsx:64-66 | the second topic of a language has the id "advanced" |
| ProgrammingLanguages.FilteredExact | learning-platform/src/pages/ProgrammingLanguages.tsx:444-447 | the shown languages keep list order, and a language is shown exactly when its name or description contains the query, ignoring case; this specifies ProgrammingLanguages.FilteredLanguages |
| ProgrammingLanguages.EmptyQueryShowsAll | learning-platform/src/pages/ProgrammingLanguages.tsx:444-447 | an empty query shows every language; the page lists eight |
| ProgrammingLanguages.SharedTopicIds | learning-platform/src/pages/ProgrammingLanguages.tsx:35-436 | every language of the page has the topics "basics" and "advanced", in that order |
| ProgrammingLanguages.ExpansionIsShared | learning-platform/src/pages/ProgrammingLanguages.tsx:449-455 | the expand toggle is keyed by topic id alone, so toggling a topic of one language flips the same topic of every language; toggling twice restores the list |
| ProgrammingLanguages.Find | learning-platform/src/pages/ProgrammingLanguages.tsx:566-567 | no result exactly when no language has the id; otherwise the first language with that id |
| ProgrammingLanguages.DisplayedTopics | learning-platform/src/pages/ProgrammingLanguages.tsx:564-568 | nothing is shown until a language is selected or when no language has the selected id; otherwise the topics of the language found |
| ProgrammingLanguages.SelectingPython | learning-platform/src/pages/ProgrammingLanguages.tsx:564-587 | selecting "python" shows Python's topics |
| Interests.ToggleInterestExact | learning-platform/src/pages/Interests.tsx:123-129 | deselecting keeps the other ids in order and drops every occurrence of the id; selecting appends the id |
| Interests.ToggleTwiceRestores | learning-platform/src/pages/Interests.tsx:123-129 | selecting a card and then deselecting it restores the selection |
| Interests.SelectionHasNoDuplicates | learning-platform/src/pages/Interests.tsx:121-129 | a selection reached from the empty one by clicks alone never holds an id twice |
| Interests.ContinueGate | learning-platform/src/pages/Interests.tsx:235 | Continue is disabled exactly when nothing is selected; selecting a card enables it, and deselecting the only card disables it again |
| JobsInternships.FilteredJobs | learning-platform/src/pages/JobsInternships.tsx:56-58 | "All" shows the list itself; another type shows only openings of that type, and every opening of that type |
| JobsInternships.FilterKeepsOrder | learning-platform/src/pages/JobsInternships.tsx:56-58 | the shown openings keep the list's order |
| JobsInternships.PartTimeShowsNone | learning-platform/src/pages/JobsInternships.tsx:12-51 | no opening of the page is part-time, so "Part-time" shows nothing |

## Left out

- bcrypt: hashing and comparison are the parameters `hash` and `compare`. Salt and cost factor are not modelled.
- JSON Web Tokens: signing and verification are parameters. The claims and the `24h` expiry text are modelled; the token's encoding and signature are not.
- `Date.now()`, `crypto.randomBytes` and `Math.random`: each value is a parameter of the operation that uses it.
- Sending e-mail: the reset mail's recipient, subject and link are modelled as a value. SMTP delivery and the mail's HTML are not.
- `FRONTEND_URL`: a parameter of the reset link.
- The table schema: MySQL column types, collation and the `created_at` default live in the database, not in this code. The column set is the union of the names the statements use.
- Mongoose schema behaviour (`runValidators`, `trim`, `lowercase`, `match`, the generated `_id`, the `createdAt` default, and strict mode dropping fields outside the schema): it runs inside the library. Documents are stored and updates applied as given.
- The database connection pools: not modelled. Each store is a map held by a class.
- `userService.ts` catch blocks: `createUser`, `getUserByEmail`, `updateUser` and `deleteUser` rethrow `error.message || ...`. The model keeps only the message thrown inside the `try`, because store failures are not modelled.
- The default import of `userService` in `pages/api/auth/*.js`: it does not match the named export, so the bundler imports it as `undefined` and every call through it throws a `TypeError`. The `register` and `login` callees of those routes are parameters.
- JavaScript numbers: `parseFloat`, `parseInt` and `Number` are a parameter that returns no value where JavaScript gives `NaN`. The string/number coercion in the comparisons of `signup.js` is not modelled; numeric fields are reals.
- Text handling: lower-casing is ASCII only. Unicode case mapping and normalisation are not modelled.
- Keys inherited from `Object.prototype`: for `vercelErrors[code]` and `code in vercelErrors` these are not modelled. The registry is a finite table of its own keys.
- SignupPage.ValidateForm: the error record is keyed by the page's own inputs only. Keys that `setErrors` might carry from elsewhere are not modelled.
- Display-only fields: not modelled. These are mentor ratings, images and bios; post content and avatars; competition dates, prizes and participant counts; job salaries; opening durations, stipends and apply links; interest titles, descriptions and icons; subtopic names and texts; learning icons; resume templates.
- Job deadlines: kept as the integer yyyymmdd rather than parsed with `new Date`. The two give the same order for the page's dates.
- UI side effects: navigation, `alert`, timers, loading and animation flags, preview and export.
- Logging: the `console.log` and `console.error` calls of the services, routes and pages write to the console only and are not modelled.
- Asynchrony: not modelled. Every `await` runs to completion before the next step, and no two requests interleave.
- Other files: `api/auth/login.ts` and `api/auth/me.ts` only forward calls. `remove-unused.js` does file I/O. `Profile.tsx` relies on floating point and randomness. ErrorDisplay and the remaining pages only present data. None of these is part of this model.

- AuthService.UpdateOutcome, UsersTable.ColumnOf, AuthService.Resolve, AuthService.Execute: a key of `userData` that is other SQL text (a back-quoted name, a comment, several assignments in one key) is read as naming no column and fails as ER_BAD_FIELD_ERROR; MySQL would parse and execute such text.
- AuthService.UpdateOutcomeKeepsDigests: holds only when no key let through names the `password` column; as written, `updateUser` can store plain text there (see Findings), and AuthService.UpdateOutcomeFixedKeepsDigests states the property for the corrected filter.
- SignupApi.SignupError, SignupRoute.RequestError, AuthPage.PasswordError (and the contracts built on them): a string's length counts Unicode scalar values, while JavaScript's `.length` counts UTF-16 code units, so a password with characters outside the Basic Multilingual Plane is shorter here than in the source.
- UsersTable.FirstWhere: SQL without `ORDER BY` promises no order of the selected rows; taking the matching row with the smallest key, the order of a primary-key scan, is a modelling choice.
- HTML constraint validation: the `required`, `type="email"` and `min`/`max` attributes of the inputs in `Auth.tsx` and `SignUp.tsx` let the browser refuse a submission before the page's handler runs. The model starts at the handler.
- UsersTable.Verifies: bcrypt's `compare` throws "Illegal arguments" when the stored password is not a string (a `NULL` or a number), and `loginUser`, `changePassword` and the MySQL `login` of `userService` then reject with that error. The model answers "no match" there instead, so AuthService.LoginUser, AuthService.ChangePassword and UserService.Login give their own failure for such a row.

## Findings

| source | as written | input that shows it | evidently intended | confidence | as-written member | corrected member |
|---|---|---|---|---|---|---|
| learning-platform/src/pages/Auth.tsx:55-65, 155-162 | in sign-in mode `validateForm` checks the e-mail and password of the sign-up form, while typing in sign-in mode writes only the sign-in form | the page as it opens (sign-in mode, both forms empty), then any e-mail and password typed in: whenever `handleSubmit` runs, it is blocked with 'Email is required' and makes no login call; in the browser the `required` attributes of the empty sign-up inputs block the submission even earlier | sign-in validates and sends what was typed into the sign-in form | not executed | AuthPage.SignInAlwaysBlocked | AuthPage.FixedSignInSendsTyped |
| learning-platform/src/services/authService.ts:216-227 | the filter drops only the key spelled exactly 'password' and pastes every other key into `SET ${key} = ?`, where MySQL reads `Password` or `password ` as the password column | `updateUser(id, {Password: 'x'})` on a user row: the statement succeeds and the row's password becomes the plain text `x` | no key of `userData` ever writes the password column, which holds only bcrypt digests | not executed | AuthService.CapitalisedKeyStoresPlainText | AuthService.UpdateOutcomeFixedKeepsDigests |
