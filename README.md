# SmartBank in Dafny

A model of the core of SmartBank: a FastAPI backend over MongoDB and a React client. The model
covers:

- **Money transfers.** The validation chain of `transfer_money` (amount, sender account, FD
  accounts, receiver account, balance, daily limit), the two balance updates and the
  transaction log.
- **Accounts.** Creation with a fresh `SBK` + nine-digit number.
- **Users and KYC.** User and admin signup and login, KYC submission with the PAN check, and
  the dashboard.
- **Authentication.** The token dependencies.
- **History and admin tools.** The history endpoints, and the admin search, view, deactivate
  and limit endpoints.
- **Client logic.** The route guards (`ProtectedRoute`, `AdminRoute`), the `App.jsx` route
  table, `getUserRole` with an exact model of `atob`, and the admin dashboard's transaction
  filter, totals and search handler.

**Data.** The database is a class, `Store.Database`. Its fields are the four collections in
natural (insertion) order and one ObjectId counter shared by all inserts.

- `find_one` is the first matching document.
- `sort("timestamp", -1)` is a stable sort, newest first.
- Handlers that change the database are methods with `modifies db`. Each states the whole new
  state and keeps `Database.Valid()`: unique account numbers, non-negative balances and ids
  below the counter.
- Pure decisions are functions, each with lemmas giving its meaning.
- Loops in the source are `while` loops with invariants: the daily total, the
  account-number retry loop, the history and search loops, and the dashboard filter with its
  counters.

**Parameters.** Randomness, clocks, bcrypt salts, the OCR engine's text, the
case-insensitive `$regex` and `JSON.parse` are parameters of the operations that use them.

**Behaviour the model makes explicit:**

- `is_admin` binds the first `get_current_user` (the one that only decodes the token),
  because it is defined between the two definitions. The routes use the second one, which
  looks admins up by email. Admin tokens carry `sub = str(_id)`, so an admin token never
  resolves through the second one (`Dependencies.AdminTokenResolvesNoRecord`).
- `atob` uses the standard base64 alphabet, so a payload segment in the base64url alphabet
  (with `-` or `_`) makes `getUserRole` return null (`Jwt.UrlSafePayloadYieldsNull`).
- Python's `$` lets one trailing newline through the PAN check
  (`PanValidator.AcceptsTrailingNewline`).

## Model

| member | source | states |
|---|---|---|
| Common.FindFirst | backend/app/routes/admin.py:46 | `find_one` returns the first document in natural order that matches, and None exactly when none matches |
| Common.Filter | backend/app/routes/transaction.py:43-48 | a `find` keeps only matching documents, and never more than the collection holds |
| Common.FilterCount | backend/app/routes/transaction.py:43-48 | a `find` keeps every matching document as often as it occurs and drops every other one |
| Common.FilterIsSubsequence | frontend/src/pages/AdminDashboard.jsx:96-116 | filtering preserves order |
| Common.FilterSnoc | frontend/src/pages/AdminDashboard.jsx:96-116 | filtering one more element at the end appends it exactly when it is kept |
| Security.HashPassword | backend/app/core/security.py:6-7 | the hash verifies against the password it was made from, with the salt drawn |
| Security.HashRejectsOtherPasswords | backend/app/core/security.py:9-10 | a hash accepts exactly the passwords whose first 72 UTF-8 bytes equal its own password's; among passwords of at most 72 bytes, only the password it was made from |
| Security.Utf8Injective | backend/app/core/security.py:7-10 | `password.encode()` maps different passwords to different byte strings |
| Security.EncodeCharDecodes | backend/app/core/security.py:7-10 | each character's UTF-8 bytes announce their own length in the lead byte and decode back to the character |
| Security.Utf8Append | backend/app/core/security.py:7-10 | the encoding of a concatenation is the concatenation of the encodings |
| Security.BcryptKey | backend/app/core/security.py:7-10 | bcrypt's input is the whole encoding when it has at most 72 bytes, otherwise its first 72 bytes |
| Security.LongPasswordsCollide | backend/app/core/security.py:9-10 | two passwords sharing their first 72 bytes verify against each other's hash |
| Security.SharedPrefixCollides | backend/app/core/security.py:9-10 | distinct passwords that extend one prefix of 72 or more characters still verify against each other's hash |
| Security.CreateAccessToken | backend/app/core/security.py:12-22 | decoding a token the server creates gives back exactly its claims |
| Security.DecodeToken | backend/app/core/dependencies.py:12-16 | claims come only from tokens the server signed |
| Store.View | backend/app/routes/user.py:60-66 | the account projection returned to clients copies the five public fields |
| Store.AccountByNumberUnique | backend/app/routes/admin.py:108 | with unique numbers, `find_one` by number finds exactly the account with that number |
| Store.OwnerName | backend/app/routes/transaction.py:55-64 | the joined owner name is "Unknown" when no account has the number |
| Store.OwnerNameOfFirst | backend/app/routes/transaction.py:55-64 | when the number exists, with the first account carrying it: "Unknown" when no user record has that account's owner id, and otherwise the name of the first user record with that id |
| Store.OwnerNameFromFirst | backend/app/routes/transaction.py:55-57 | the scan for the account stops at the first account carrying the number |
| Store.RecordByIdFirst | backend/app/routes/user.py:41 | `find_one({"_id": …})` returns the first record with the id |
| Store.AccountOfUserFirst | backend/app/routes/user.py:46 | `find_one({"user_id": …})` returns the user's first account, whatever other accounts the user holds |
| Store.IdText | backend/app/routes/admin.py:37 | `str(ObjectId)` is a non-empty string |
| Store.InsertByTimeElements | backend/app/routes/transaction.py:48 | one sorting step adds exactly one element |
| Store.InsertByTimeSorted | backend/app/routes/transaction.py:48 | one sorting step keeps the cursor newest first |
| Store.SortByTimeDescCorrect | backend/app/routes/transaction.py:89 | `sort("timestamp", -1)` returns a permutation of its input, newest first, so the admin history lists every logged transaction as often as the log holds it |
| Store.TransactionsOfCorrect | backend/app/routes/transaction.py:43-48 | the history cursor of an account holds every transaction it sent or received, as often as logged, and nothing else, newest first |
| Store.TransactionsOfInvolve | backend/app/routes/admin.py:114-119 | every transaction in the cursor was sent or received by that number |
| Store.AccountByNumberSameNumbers | backend/app/routes/admin.py:152-155 | updating fields other than the number does not change which account a number finds |
| AccountNumber.GenerateAccountNumber | backend/app/utils/account_number.py:4-7 | an account number is "SBK" followed by the nine drawn digits |
| AccountNumber.GenerateInjective | backend/app/utils/account_number.py:4-7 | different draws give different account numbers |
| AccountNumber.EveryAccountNumberIsGenerated | backend/app/utils/account_number.py:4-7 | every string of that format is generated by its own digits |
| AccountService.ChooseAccountNumber | backend/app/services/account_service.py:10-14 | the retry loop stops at the first draw whose number no account has |
| AccountService.AppendFreshAccount | backend/app/services/account_service.py:12-25 | inserting an account with an untaken number keeps numbers unique, and the new account is found by its number |
| AccountService.CreateAccount | backend/app/services/account_service.py:9-26 | a new active account with a fresh number, the type's limit (50000/200000/0) and balance 5000 is appended and nothing else changes |
| AccountRoutes.CreateNewAccount | backend/app/routes/account.py:10-30 | a caller whose role is not "user" gets 403 and the database is unchanged; a user gets the view of a freshly appended account of theirs |
| TransactionService.TodayTotal | backend/app/services/transaction_service.py:38-45 | the loop sums the amounts the sender's account sent since the start of the day |
| TransactionService.OutgoingSinceAppend | backend/app/services/transaction_service.py:38-69 | logging a transfer raises the sender's daily total by its amount and leaves other totals alone |
| TransactionService.TransferPlan | backend/app/services/transaction_service.py:9-48 | a success names an active non-FD sender account of the user that can pay, and an active receiver with the number; every error is a 400 or 404 |
| TransactionService.NonPositiveAmountRefused | backend/app/services/transaction_service.py:10-11 | an amount of at most 0 is refused with 400 "Invalid amount" whatever the state |
| TransactionService.NoSenderAccountRefused | backend/app/services/transaction_service.py:13-19 | a user with no active account is refused with 404 "Sender account not found" |
| TransactionService.SenderChecksInOrder | backend/app/services/transaction_service.py:21-48 | once the sender account is found, the FD check, the receiver lookup, the balance check and the daily-limit check each refuse with their own code and message, in that order |
| TransactionService.TransferSucceedsWith | backend/app/services/transaction_service.py:13-48 | when every check passes, the transfer is accepted and the sender is the user's first active account |
| TransactionService.TransferSucceedsIff | backend/app/services/transaction_service.py:10-48 | a transfer is accepted exactly when the amount is positive, the user's first active account can pay it within balance and daily limit and is not FD, and an active receiver exists |
| TransactionService.TransferWithinDailyLimit | backend/app/services/transaction_service.py:36-48 | after an accepted transfer the day's outgoing total, new amount included, is within the sender's daily limit |
| TransactionService.BalanceFromAdjust | backend/app/services/transaction_service.py:51-59 | a `$inc` on one balance changes the sum of balances by the increment |
| TransactionService.TransferConservesMoney | backend/app/services/transaction_service.py:51-59 | the two balance updates leave the total of all balances unchanged |
| TransactionService.TransferEffect | backend/app/services/transaction_service.py:51-59 | the sender loses the amount, the receiver gains it, and no other account and no other field changes |
| TransactionService.TransferKeepsInvariants | backend/app/services/transaction_service.py:32-59 | an accepted transfer keeps account numbers unique and balances non-negative |
| TransactionService.TransferMoney | backend/app/services/transaction_service.py:9-71 | on refusal nothing changes; on success the balances are updated, exactly one transaction (sender, receiver, amount, now) is logged with a fresh id, and the total balance is unchanged |
| TransactionRoutes.Transfer | backend/app/routes/transaction.py:11-30 | a non-user gets 403 and nothing changes; otherwise the service's outcome, with "Transfer successful" and the new transaction's id |
| TransactionRoutes.UserHistory | backend/app/routes/transaction.py:34-80 | 404 exactly when the user has no account; otherwise one entry per transaction of the account, newest first |
| TransactionRoutes.UserEntries | backend/app/routes/transaction.py:52-78 | the loop yields one entry per cursor transaction, in cursor order, each rendered as a debit naming the receiver's owner or as a "Self" credit |
| TransactionRoutes.UserEntriesMeaning | backend/app/routes/transaction.py:52-78 | an entry is a debit exactly when the account sent it; a debit names the receiver's owner (or "Unknown") and number; a credit reads "Self" and the own number |
| TransactionRoutes.AdminHistory | backend/app/routes/transaction.py:84-119 | one "transfer" entry per logged transaction, newest first, with both owners joined |
| TransactionRoutes.AdminEntries | backend/app/routes/transaction.py:92-117 | the loop yields one "transfer" entry per cursor transaction, in cursor order, with both owners' names joined |
| UserRoutes.WithKyc | backend/app/routes/user.py:18-29 | the first user record with the id gets the PAN, address and phone and is flagged verified and KYC-completed; every other record is unchanged; no record with the id means no change |
| UserRoutes.SubmitKyc | backend/app/routes/user.py:10-33 | an invalid PAN gives 400 and no change; otherwise the user record is updated and the success message returned |
| UserRoutes.GetDashboard | backend/app/routes/user.py:36-67 | 404 exactly when no user record has the id; otherwise the name, email and `kyc_completed` (false when absent) of the first record with the id, and the projection of the user's first account, or None exactly when the user has none |
| UserRoutes.KycThenDashboard | backend/app/routes/user.py:15-59 | after a KYC submission the dashboard reports KYC as completed |
| Dependencies.GetCurrentUserPayload | backend/app/core/dependencies.py:10-22 | a signed token yields its claims; anything else gives 401 "Invalid token" |
| Dependencies.IsAdmin | backend/app/core/dependencies.py:24-30 | only role "admin" passes, unchanged; otherwise 403 "Admin access required" |
| Dependencies.AdminGateIff | backend/app/core/dependencies.py:10-30 | an admin route is entered exactly with a signed token whose role claim is "admin"; 401 when unsigned, 403 for another role |
| Dependencies.GetCurrentUser | backend/app/core/dependencies.py:33-58 | success exactly when the token is signed and the collection for its role has a record with that email; the first one is returned with the token's role; otherwise 401 |
| Dependencies.CurrentUserMatchesToken | backend/app/core/dependencies.py:40-52 | the resolved user carries the token's role and has the token's subject as email |
| Dependencies.AdminTokenResolvesNoRecord | backend/app/core/dependencies.py:46 | a token the admin routes issue passes `is_admin` but never resolves through the second `get_current_user` |
| AuthRoutes.NewUser | backend/app/routes/auth.py:18-24 | a signup inserts a "user" record whose KYC is not completed and whose hash verifies the password |
| AuthRoutes.UserSignup | backend/app/routes/auth.py:9-33 | a registered email gives 400 and no change; otherwise one user is appended and the token carries the email and role "user" |
| AuthRoutes.UserLogin | backend/app/routes/auth.py:36-50 | success exactly when the first user with the email verifies the password; its token carries that email and role; otherwise 401 |
| AuthRoutes.OauthLogin | backend/app/routes/auth.py:52-69 | the OAuth form login behaves as the JSON login with the username as email |
| AuthRoutes.SignupThenLogin | backend/app/routes/auth.py:9-50 | a user who has just signed up can log in with their password |
| AuthRoutes.SignupTokenResolves | backend/app/routes/auth.py:28-31 | the signup token resolves to the record just inserted |
| AdminRoutes.AdminSignup | backend/app/routes/admin.py:12-41 | a wrong bank secret gives 403 before the existing-email check (400); otherwise one admin is appended and its token carries the new id and role "admin" |
| AdminRoutes.AdminLogin | backend/app/routes/admin.py:44-58 | success exactly when the first admin with the email verifies the password; the token's subject is that admin's id |
| AdminRoutes.AdminLoginTokenIsAdmin | backend/app/routes/admin.py:53-56 | an admin login token decodes to role "admin" |
| AdminRoutes.NameSearchSound | backend/app/routes/admin.py:81-95 | every name-search record belongs to a user whose name matches and shows that user's first account |
| AdminRoutes.NameSearchComplete | backend/app/routes/admin.py:81-95 | every matching user with an account is found |
| AdminRoutes.SearchUser | backend/app/routes/admin.py:59-100 | an exact account-number hit gives that one record (500 when its user is missing); otherwise the name search, with 404 when it finds nothing |
| AdminRoutes.ViewUser | backend/app/routes/admin.py:102-144 | 404 for an unknown number, 500 for a missing owner; otherwise the owner's details, the account and all its transactions newest first |
| AdminRoutes.Deactivated | backend/app/routes/admin.py:152-155 | deactivation keeps every number and balance |
| AdminRoutes.WithLimit | backend/app/routes/admin.py:172-175 | a limit change keeps every number and balance |
| AdminRoutes.DeactivatedEffect | backend/app/routes/admin.py:152-158 | only the first account with the number changes, and of it only `is_active`, which becomes false |
| AdminRoutes.WithLimitEffect | backend/app/routes/admin.py:172-178 | only the first account with the number changes, and of it only the daily limit |
| AdminRoutes.DeactivateIdempotent | backend/app/routes/admin.py:146-160 | deactivating twice is deactivating once |
| AdminRoutes.WithLimitLastWins | backend/app/routes/admin.py:166-180 | of two limit updates the last wins |
| AdminRoutes.DeleteAccount | backend/app/routes/admin.py:146-160 | 404 exactly when no account has the number; the accounts become the deactivated ones, nothing else changes |
| AdminRoutes.UpdateLimit | backend/app/routes/admin.py:166-180 | 404 exactly when no account has the number; the accounts get the new limit, nothing else changes |
| PanValidator.IsValidPan | backend/app/utils/pan_validator.py:3-5 | valid exactly for five capitals, four digits and a capital, optionally followed by one newline |
| PanValidator.MatchAtClasses | backend/app/utils/pan_validator.py:4-5 | the matcher accepts exactly when each character is in its class |
| PanValidator.MatchAtPan | backend/app/utils/pan_validator.py:4-5 | the pattern matches at a position exactly when the ten characters there have the PAN shape |
| PanValidator.ShapeIsPattern | backend/app/utils/pan_validator.py:4 | the PAN shape is the pattern's classes, position by position |
| PanValidator.AcceptsExample | backend/app/utils/pan_validator.py:3-5 | "ABCDE1234F" is valid |
| PanValidator.AcceptsTrailingNewline | backend/app/utils/pan_validator.py:4-5 | a PAN followed by one newline is valid |
| PanValidator.RejectsTwoNewlines | backend/app/utils/pan_validator.py:4-5 | two trailing newlines are rejected |
| PanValidator.RejectsTrailingSpace | backend/app/utils/pan_validator.py:4-5 | a trailing space is rejected |
| PanValidator.RejectsLowercase | backend/app/utils/pan_validator.py:4-5 | lower-case letters are rejected |
| PanValidator.RejectsWideDigits | backend/app/utils/pan_validator.py:4-5 | non-ASCII digits are rejected |
| PanValidator.ValidPanLength | backend/app/utils/pan_validator.py:3-5 | a valid PAN has ten characters, or eleven ending in a newline |
| OcrService.SearchFrom | backend/app/services/ocr_service.py:11 | `re.search` finds the leftmost position where the pattern matches, or None when there is none |
| OcrService.ExtractPan | backend/app/services/ocr_service.py:7-14 | the extracted PAN is the leftmost PAN-shaped substring of the text, and None exactly when there is none |
| OcrService.ExtractedPanIsValid | backend/app/services/ocr_service.py:5-14 | an extracted PAN passes `is_valid_pan` |
| OcrService.ExtractLeftmost | backend/app/services/ocr_service.py:11-13 | if a PAN occurs anywhere, one at or before it is extracted |
| Jwt.UpToDot | frontend/src/utils/jwt.js:3 | the first segment is the longest dot-free prefix |
| Jwt.SecondSegment | frontend/src/utils/jwt.js:3 | `split(".")[1]` is undefined exactly when the token has no dot |
| Jwt.SecondSegmentOfThree | frontend/src/utils/jwt.js:3 | only the second segment is taken; anything after the second dot is ignored |
| Jwt.Sextet | frontend/src/utils/jwt.js:3 | each base64 character stands for six bits |
| Jwt.DecodeFrom | frontend/src/utils/jwt.js:3 | decoding yields bytes (code points below 256) |
| Jwt.StripPadding | frontend/src/utils/jwt.js:3 | padding removal only drops a suffix |
| Jwt.Atob | frontend/src/utils/jwt.js:3 | `atob`'s output is a binary string |
| Jwt.AtobOfAlphabet | frontend/src/utils/jwt.js:3 | text of alphabet characters of a valid length is decoded as it stands |
| Jwt.AtobRefusesUrlAlphabet | frontend/src/utils/jwt.js:3 | a '-' or '_' anywhere makes `atob` throw |
| Jwt.LastMember | frontend/src/utils/jwt.js:4 | `.role` is the last duplicate "role" member of the object, and undefined exactly when there is none |
| Jwt.NoDotYieldsNull | frontend/src/utils/jwt.js:3-7 | a token with no '.' yields null |
| Jwt.UrlSafePayloadYieldsNull | frontend/src/utils/jwt.js:3-7 | a base64url payload with '-' or '_' yields null whatever JSON.parse does |
| Jwt.ParseFailureYieldsNull | frontend/src/utils/jwt.js:3-7 | any JSON.parse failure yields null |
| Jwt.MissingRoleIsUndefined | frontend/src/utils/jwt.js:4-6 | an object payload with no `role` member, whatever its other members, yields undefined, a JSON null payload yields null |
| Jwt.AdminExample | frontend/src/utils/jwt.js:3-4 | a token whose payload is "eyJyb2xlIjoiYWRtaW4ifQ" yields "admin" whatever its header and signature |
| Jwt.AtobExample | frontend/src/utils/jwt.js:3 | "eyJyb2xlIjoiYWRtaW4ifQ" decodes to `{"role":"admin"}` |
| ProtectedRoute.Classify | frontend/src/components/ProtectedRoute.jsx:10-24 | a failed request means "login"; falsy KYC means "kyc" whatever the account; KYC without an account means "account"; both mean "ok"; never "loading" |
| ProtectedRoute.Guard.constructor | frontend/src/components/ProtectedRoute.jsx:6 | the component starts in "loading" with no request made |
| ProtectedRoute.Guard.CheckStatus | frontend/src/components/ProtectedRoute.jsx:9-27 | the one mount effect makes one request and sets the classified status |
| ProtectedRoute.Guard.View | frontend/src/components/ProtectedRoute.jsx:29-49 | in terms of the component's status: the placeholder exactly while loading, "/" exactly for login, /kyc and /create-account exactly for their statuses away from those paths, and the children otherwise |
| ProtectedRoute.LoadingNeverRedirects | frontend/src/components/ProtectedRoute.jsx:29-35 | "loading" renders the placeholder on every path |
| ProtectedRoute.RenderRedirects | frontend/src/components/ProtectedRoute.jsx:37-47 | redirects to "/", "/kyc" and "/create-account" happen exactly for "login", for "kyc" off /kyc, and for "account" off /create-account |
| ProtectedRoute.RenderChildrenIff | frontend/src/components/ProtectedRoute.jsx:41-49 | the children show exactly for "ok", for "kyc" on /kyc and for "account" on /create-account |
| ProtectedRoute.ClassifyDashboard | frontend/src/components/ProtectedRoute.jsx:12-23 | against `get_dashboard`: a missing user record sends the client to log in; otherwise the status follows the stored KYC flag and the user's first account |
| ProtectedRoute.Mount | frontend/src/components/ProtectedRoute.jsx:5-50 | a mount first renders the placeholder, then after its one request the decision for the answer, never the placeholder again |
| AdminRoute.DecideIff | frontend/src/components/AdminRoute.jsx:9-19 | no or an empty token goes to "/"; a role other than exactly "admin" goes to "/dashboard"; otherwise the children show |
| AdminRoute.MissingTokenIgnoresRole | frontend/src/components/AdminRoute.jsx:9-13 | the token check comes before any role decoding |
| AdminRoute.NoDotTokenRefused | frontend/src/components/AdminRoute.jsx:13-17 | a non-empty token without a dot is sent to the dashboard |
| AdminRoute.UrlSafeTokenRefused | frontend/src/components/AdminRoute.jsx:13-17 | a token with a base64url payload is sent to the dashboard |
| AdminRoute.AdminTokenAdmitted | frontend/src/components/AdminRoute.jsx:13-19 | a token whose payload encodes role "admin" is admitted |
| AppRoutes.WrapperOfPath | frontend/src/App.jsx:20-61 | /create-account, /dashboard and /transaction are protected, /admin is admin-only, /, /login, /signup, /kyc and /admin/login are unguarded |
| AppRoutes.KycRedirectLands | frontend/src/App.jsx:25-52 | "kyc" on a protected path redirects to /kyc, which shows the KYC page whatever the status |
| AppRoutes.AccountRedirectLands | frontend/src/App.jsx:27-52 | "account" shows the create-account page at /create-account and redirects there from the other protected paths |
| AppRoutes.RedirectsStayInTable | frontend/src/App.jsx:20-61 | every redirect leads to another path of the table |
| AdminDashboard.KeepIff | frontend/src/pages/AdminDashboard.jsx:99-109 | a transaction is kept exactly when it has the selected type, lies within the inclusive date bounds and reaches the minimum amount |
| AdminDashboard.Analyse | frontend/src/pages/AdminDashboard.jsx:92-116 | the filter callback's counters give the number of kept transactions and the sums of kept credits and debits; nothing is kept without a selected user |
| AdminDashboard.FilteredTxShape | frontend/src/pages/AdminDashboard.jsx:96-103 | the kept transactions keep their order; "debit" keeps only those sent by the account, "credit" only those it received |
| AdminDashboard.NoFilterKeepsAll | frontend/src/pages/AdminDashboard.jsx:99-109 | with "all" and no bounds or minimum, nothing is dropped |
| AdminDashboard.NetFlow | frontend/src/pages/AdminDashboard.jsx:238 | the net flow equals the sum of external flows: self-transfers cancel out |
| AdminDashboard.SelfTransferCountsTwice | frontend/src/pages/AdminDashboard.jsx:111-112 | a self-transfer counts in both totals |
| AdminDashboard.Normalize | frontend/src/pages/AdminDashboard.jsx:47 | a single search record becomes a one-element list, a list stays as it is |
| AdminDashboard.SearchPanel.constructor | frontend/src/pages/AdminDashboard.jsx:12-17 | the page starts with empty query, results, selection and messages |
| AdminDashboard.SearchPanel.LoadUserDetails | frontend/src/pages/AdminDashboard.jsx:59-67 | one details request; its answer becomes the selected user and the limit field, or the error "Failed to load user details" |
| AdminDashboard.SearchPanel.HandleSearch | frontend/src/pages/AdminDashboard.jsx:35-57 | an empty query only sets the error and sends nothing; a failed search empties the results with "No records found"; exactly one result loads its details |

## Left out

- MongoDB access, `async`/`await` and FastAPI's `Depends` wiring. Collections are sequences and
  route methods take the resolved dependency. The admin gate is the separate
  `Dependencies.AdminGate`, and it is not called inside the admin handlers.
- TransactionService.TransferMoney: the two `update_one` calls and the `insert_one` happen as
  one atomic step. Interleavings of concurrent requests are not modelled.
- Amounts are integers (for example paise), not Python floats or JavaScript numbers.
  Rounding is not modelled.
- bcrypt and jose are foreign libraries. A hash is a salted tag of the password's bcrypt key,
  the first 72 bytes of its UTF-8 encoding. This is the truncation of pyca/bcrypt before 5.0.
  From 5.0 on, `hashpw` raises ValueError for a longer password, so signup would answer 500;
  that version's behaviour is not modelled. A token is either signed by the server or not. The `exp` claim and expiry are not
  modelled.
- Time is a parameter. `start_of_today`, `datetime.utcnow()` and JavaScript `Date` parsing
  and time zones become integer instants supplied by the caller.
- AccountService.CreateAccount: the random draws are a caller-supplied sequence. The method
  requires that one of them yields an untaken number. The source loop would never stop without
  one, and that case is not modelled.
- The OCR engine (pytesseract, PIL) is not part of this model. `OcrService.ExtractPan` takes
  the text it would produce.
- `JSON.parse` is a parameter. The JSON grammar is not modelled.
- AdminRoutes.SearchUser: the case-insensitive `$regex` on names is a parameter `matches`.
  Regex syntax is not modelled.
- The order of transactions with equal timestamps after `sort("timestamp", -1)` is unspecified
  in MongoDB. The model keeps insertion order.
- Accounts carry no ObjectId. The balance updates address accounts by position.
- React Router's path matching is exact string equality. Case-insensitive matching and
  trailing slashes are not modelled.
- `frontend/src/api/dashboardApi.js` is not part of this model. `ProtectedRoute` receives the
  `get_dashboard` outcome, and a network failure is an error value like any other.
- AdminDashboard.SearchPanel.HandleSearch: `loadUserDetails` is not awaited in the source. The
  model runs it to completion right after the search, so later user actions cannot interleave.
- `handleLimitUpdate`, `handleDeactivate`, `handleLogout` and all rendering of the admin
  dashboard are left out. They are thin HTTP wrappers; the endpoints they call are modelled as
  `AdminRoutes.UpdateLimit` and `AdminRoutes.DeleteAccount`.
- The other pages (Home, Login, Signup, KYC, CreateAccount, Dashboard, Transaction,
  AdminLogin), the axios wrappers, configuration, CORS, application setup and the health
  route are left out.
- The admin dashboard's date fields become instants before filtering. An unparsable date
  (which the date inputs do not produce) is not modelled.
