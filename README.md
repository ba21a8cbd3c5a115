# dhana-pradarsana-react: session lifecycle and page rules in Dafny

This project models the browser side of a personal-finance dashboard. Users
sign in with a phone number and an OTP. They see a balance sheet for a chosen
date, a paginated transaction ledger, and per-account statement files whose
raw transactions they resolve into typed ledger entries.

Two groups of code are modelled.

**The authentication session.** It is shared state: two localStorage
entries (`firebase_jwt` and `firebase_jwt_expires_at`) plus whether the
identity provider has a signed-in user. The model covers every transition
that reads or writes it:

- `fetchWithAuth`, which attaches the bearer token and, on a 401, either ends
  an expired session or force-refreshes the token and retries once;
- the application's `onIdTokenChanged` handler;
- the `/login` redirect, the route table and the `RequireAuth` guard;
- the OTP login page;
- the header's logout.

Each transition is a pure step function (`FetchStep`, `TokenChangedStep`,
`OtpSubmitStep`, `LogoutStep`), and each step function's contract states every
branch. Each imperative handler (`Fetch`, `OnIdTokenChanged`,
`LoginForm.SubmitOtp`, `Logout`) runs against a `Session.Store` object one
`getItem`/`setItem`/`removeItem` at a time. Each is proved to leave exactly the
state its step function describes. The `Lifecycle` module proves properties of
sequences of transitions, for example:

- an expiry written at time `t` reads as expired, under both readers, exactly
  after `t + 4h`;
- a fresh login refreshes on its first 401;
- after a logout, requests carry `Bearer null`.

**The page rules.** These are the validators, formatters and state handlers of:

- the statement-file page: uploadable accounts, the file-type check, the
  `accept` string, the upload submit, the ticket icon and file reselection;
- the resolve dialog: account-type lookup, amount colour, the
  type/category/subcategory cascade, the Resolve enable rule and the payload;
- the transaction ledger: pagination, amount sign and type cell;
- the balance sheet: the `YYYY-MM-DD` key, `netWorth` normalisation and
  dash rows;
- the date picker: ordinal suffix, label and popover.

Everything awaited from outside is a parameter of the operation that awaits
it: clock readings, server status codes and bodies, the identity provider's
tokens, whether `signOut()` resolves, and whether the SMS sign-in resolves.

JavaScript's `Number(s)` and `parseInt(s, 10)` are modelled on the strings the
application stores (`Text.JsNumber`, `Text.JsParseInt`). `Text.ReadBackNatToString`
proves that both read back exactly what `toString()` wrote.

Two behaviours of the code are easy to overlook, and the model follows the
code in both:

- **Missing token.** With no stored token, `fetchWithAuth` still sends an
  `Authorization` header. The template literal prints it as `Bearer null`
  (`FetchWithAuth.BearerValue`).
- **Expiry test.** A session counts as expired only when the clock is strictly
  later than the stored expiry (`now > expiresAt`), not when the two are equal.

## Model

| member | source | states |
|---|---|---|
| Text.NatToString | src/pages/BalanceSheetPage.tsx:51-53 | `toString()` of a non-negative integer is a non-empty digit string whose first digit is `0` exactly when the number is 0 |
| Text.DigitsValueOfNatToString | src/lib/fetchWithAuth.ts:41-42 | the digit string written for an expiry reads back as the same number |
| Text.NatToStringOfDigitsValue | src/lib/fetchWithAuth.ts:27 | every canonical digit string is the one `toString()` writes for its value (the converse round trip) |
| Text.LeadingDigits | src/App.tsx:26 | the prefix `parseInt` consumes is all digits, and the character after it (if any) is not a digit |
| Text.JsNumber | src/lib/fetchWithAuth.ts:27 | `Number(s)` is defined exactly on digit strings, the empty string reads as 0, and a digit string without a leading zero is the `toString()` of its value |
| Text.JsParseInt | src/App.tsx:26 | `parseInt(s, 10)` is NaN iff `s` does not start with a digit, and agrees with `Number` on every non-empty digit string |
| Text.ReadBackNatToString | src/App.tsx:26-27 | `Number(...)` and `parseInt(..., 10)` both return `n` for the string `n.toString()` |
| Text.ToLower | src/components/resolve-dialog.tsx:115 | ASCII lower-casing keeps the length and maps each character independently |
| Text.ToLowerIdempotent | src/pages/TransactionsPage.tsx:124 | lower-casing twice is lower-casing once |
| Text.PadStart | src/pages/BalanceSheetPage.tsx:52-53 | `padStart` keeps a long-enough string unchanged and otherwise ends with the original, preceded only by the fill character |
| Text.JsRem | src/components/calendar-22.tsx:28 | JavaScript `%` gives a remainder with the sign of the dividend, smaller in magnitude than the divisor, and congruent to the dividend (equal to Dafny's `%` on non-negative numbers) |
| Text.Join | src/pages/BalanceSheetPage.tsx:50-54 | `join` has the summed length of the parts plus one separator between each two |
| Text.JoinEnds | src/pages/FileStatementsPage.tsx:420 | a join starts with its first part followed by the separator, and ends with its last part |
| Text.JoinThree | src/pages/BalanceSheetPage.tsx:50-54 | three parts join as first, separator, second, separator, third |
| Session.Cleared | src/App.tsx:43-44 | removing both keys leaves neither key and does not touch the signed-in user |
| Session.ExpiryFor | src/lib/fetchWithAuth.ts:41-42 | the stored expiry reads back, under both readers, as the write time plus four hours |
| Session.Store.constructor | src/lib/fetchWithAuth.ts:9 | a store starts in the given session state |
| Session.Store.GetItem | src/lib/fetchWithAuth.ts:9 | `getItem` returns the entry under that key |
| Session.Store.SetItem | src/lib/fetchWithAuth.ts:39 | `setItem` writes that key and leaves the other key and the user as they were |
| Session.Store.RemoveItem | src/lib/fetchWithAuth.ts:32-33 | `removeItem` removes that key and leaves the other key and the user as they were |
| Session.Store.SignOut | src/lib/fetchWithAuth.ts:29-31 | a resolved `signOut()` ends the provider's user, a rejected one changes nothing, and neither touches the stored keys |
| Session.Store.SignIn | src/pages/LoginPage.tsx:98 | a confirmed OTP gives the provider a user and leaves the keys as they were |
| FetchWithAuth.BearerValue | src/lib/fetchWithAuth.ts:16 | the header value is `Bearer ` followed by the token, or by `null` when none is stored |
| FetchWithAuth.WithAuth | src/lib/fetchWithAuth.ts:12-18 | the request keeps the caller's method, body and other headers, and gains exactly the `Authorization` key, which overrides the caller's |
| FetchWithAuth.ExpiredOnRetry | src/lib/fetchWithAuth.ts:27 | the retry path's test holds iff the stored expiry is a non-empty digit string whose value the clock has passed |
| FetchWithAuth.FetchStep | src/lib/fetchWithAuth.ts:7-50 | the first request carries the stored token, and if it rejects the call rejects with nothing changed. A non-401 reply, or one with no signed-in user, is returned untouched. An expired 401 signs out, removes both keys, redirects to `/login` and returns the 401. Otherwise the token is refreshed with a four-hour expiry and the request is retried exactly once. The call rejects if the refresh rejects (nothing written) or the retry rejects (the new token and expiry stay written). A second request happens iff the refresh succeeded, and the call rejects iff one of its awaited promises did |
| FetchWithAuth.Fetch | src/lib/fetchWithAuth.ts:7-50 | the step-by-step wrapper leaves the store, the requests sent and the result exactly as `FetchStep` describes |
| App.ExpiredOnTokenChange | src/App.tsx:26-27 | the handler's test holds iff the stored expiry starts with digits whose value is non-zero and lies before the clock |
| App.TokenChangedStep | src/App.tsx:21-46 | no user clears both keys. A user with an expired session (`parseInt`; 0 or NaN never expires) clears both keys and calls `signOut`. Otherwise the token and a four-hour expiry are written, or nothing changes if `getIdToken` rejects. The two keys are only ever removed together |
| App.OnIdTokenChanged | src/App.tsx:21-46 | the handler leaves the store exactly as `TokenChangedStep` describes |
| App.ExpiryBoundary | src/App.tsx:26-27 | for a stored expiry the application wrote, the handler's test holds iff the value is non-zero and the clock is strictly past it |
| App.LoginOrRedirect | src/App.tsx:54-60 | `/login` navigates to `/balance-sheet` iff a non-empty token is stored, and shows the login page otherwise |
| App.Route | src/App.tsx:63-73 | `/` goes to `/login`, `/login` is `LoginOrRedirect`, and exactly the three protected paths render behind the guard |
| RequireAuth.View | src/components/RequireAuth.tsx:13-22 | nothing renders while unknown, children render iff authenticated, and otherwise a replacing redirect to `/login` carries the current location |
| RequireAuth.Guard.constructor | src/components/RequireAuth.tsx:5 | the guard starts unknown and renders nothing |
| RequireAuth.Guard.Navigate | src/components/RequireAuth.tsx:8-11 | the token is re-read only when the pathname changes, and afterwards the guard is never in the unknown state |
| LoginPage.PhoneDraftTyping | src/pages/LoginPage.tsx:29-35 | a typed character is taken iff it is a digit and the draft has fewer than ten, and deleting from the end is always taken |
| LoginPage.OtpRecipient | src/pages/LoginPage.tsx:61-65 | the SMS goes to `+91` followed by the ten-digit phone |
| LoginPage.SendOtpDecision | src/pages/LoginPage.tsx:37-81 | nothing happens unless the phone has ten digits. An OTP is sent iff the check answered 202 and the SMS sign-in resolved. 403 is "not registered", any other status a server error, and a rejection a failure |
| LoginPage.OtpSubmitStep | src/pages/LoginPage.tsx:83-112 | a PIN shorter than 6 or no pending confirmation changes nothing. A login succeeds iff the confirmation and the token both resolve; it then stores only the token key and navigates to `/balance-sheet`. A rejected confirmation reports an invalid OTP and changes nothing; a confirmation whose token rejects reports the same but leaves the provider signed in. The expiry key is never written |
| LoginPage.LoginForm.constructor | src/pages/LoginPage.tsx:24-26 | the form starts with an empty phone and nothing pending |
| LoginPage.LoginForm.ChangePhone | src/pages/LoginPage.tsx:29-35 | an edit is taken iff it is at most ten digits, so the phone field always stays a valid draft |
| LoginPage.LoginForm.SendOtp | src/pages/LoginPage.tsx:37-81 | the outcome is `SendOtpDecision`, `loading` is cleared on every path that set it, and the OTP step opens only on success |
| LoginPage.LoginForm.SubmitOtp | src/pages/LoginPage.tsx:91-112 | the store ends as `OtpSubmitStep` describes, and `loading` is cleared on every path that set it |
| AppHeader.DisplayName | src/components/layout/AppHeader.tsx:17-32 | the name is the server's non-empty `name`, and `User` on any failure or empty name |
| AppHeader.AvatarInitial | src/components/layout/AppHeader.tsx:50 | one character: the name's first letter, or `U` |
| AppHeader.MenuLabel | src/components/layout/AppHeader.tsx:56 | the label is never empty: it is the user's name whenever that is non-empty, and `User` otherwise |
| AppHeader.InitialOfLabel | src/components/layout/AppHeader.tsx:50-56 | once the fetch settled, the avatar letter is the first letter of the menu label |
| AppHeader.Header.constructor | src/components/layout/AppHeader.tsx:10 | no user before the fetch |
| AppHeader.Header.Mount | src/components/layout/AppHeader.tsx:12-34 | the user is fetched iff a non-empty token is stored, and then the display name is set |
| AppHeader.LogoutStep | src/components/layout/AppHeader.tsx:58-67 | a resolved sign-out removes both keys, ends the user and redirects to `/login`; a rejected one changes nothing |
| AppHeader.Logout | src/components/layout/AppHeader.tsx:58-67 | the handler leaves the store and the redirect exactly as `LogoutStep` describes |
| FileStatements.Uploadable | src/pages/FileStatementsPage.tsx:66 | an account is offered for upload iff it is in the list and its statement is extracted |
| FileStatements.UploadableAppend | src/pages/FileStatementsPage.tsx:66 | the filter keeps the accounts' order (it distributes over concatenation) |
| Lookup.FindById | src/pages/FileStatementsPage.tsx:67 | `find` by id returns the first element with that id, and none iff no element has it; the resolve dialog uses the same lookup (src/components/resolve-dialog.tsx line 34) |
| FileStatements.LastDot | src/pages/FileStatementsPage.tsx:430 | the position found holds a dot, and no dot follows it |
| FileStatements.RawExtension | src/pages/FileStatementsPage.tsx:430 | the extension has no dot and is what follows the last dot, or the whole name iff it has no dot |
| FileStatements.Extension | src/pages/FileStatementsPage.tsx:430 | the compared extension is lower-case, has no dot, and is the whole lower-cased name when the name has no dot |
| FileStatements.ExtensionOfDottedName | src/pages/FileStatementsPage.tsx:430 | `base + "." + ext` has extension `ext` (lower-cased for the comparison) whatever the base |
| FileStatements.RejectedByTypedExtension | src/pages/FileStatementsPage.tsx:429-431 | a file `base.ext` is refused iff the allowed list is non-empty, `ext` is non-empty and its lower-case form is not in the list |
| FileStatements.RejectionMessage | src/pages/FileStatementsPage.tsx:432 | the refusal message starts `File type .` followed by the extension, and ends with the allowed formats joined by `, ` |
| FileStatements.TrailingDotAccepted | src/pages/FileStatementsPage.tsx:431 | a name ending in a dot has an empty extension and is never refused |
| FileStatements.Dotted | src/pages/FileStatementsPage.tsx:420 | every allowed format gets a leading dot, in order |
| FileStatements.AcceptString | src/pages/FileStatementsPage.tsx:420 | `accept` lists the dotted formats and starts with the first one, or is `.pdf,.csv` when there are none |
| FileStatements.Ticket | src/pages/FileStatementsPage.tsx:537-543 | no icon unless both counts are numbers, and the "minus" icon iff they differ |
| FileStatements.Reselect | src/pages/FileStatementsPage.tsx:267-273 | a non-empty previous key stays selected iff the new list still has it. Otherwise, including when the previous key is missing or empty, the first file is selected, or none iff the list is empty. A selected key always belongs to the new list |
| FileStatements.TransactionsOf | src/pages/FileStatementsPage.tsx:138 | a bare array is taken as it is, and an object's missing `data` is an empty list |
| FileStatements.UploadFailure | src/pages/FileStatementsPage.tsx:369 | the message is `Unauthorized` for 401, and otherwise the failure text with the status |
| FileStatements.Page.constructor | src/pages/FileStatementsPage.tsx:60-63 | the page starts with no accounts, no choice and no cached lists |
| FileStatements.Page.Accept | src/pages/FileStatementsPage.tsx:420-429 | the file input's `accept` lists the dotted formats of the account whose list `ChooseFile` validates against, or `.pdf,.csv` when that list is empty |
| FileStatements.Page.AccountsLoaded | src/pages/FileStatementsPage.tsx:79-80 | only the account list changes |
| FileStatements.Page.AutoSelectTab | src/pages/FileStatementsPage.tsx:113-117 | the first uploadable account becomes the tab only when no tab is active |
| FileStatements.Page.ChooseAccount | src/pages/FileStatementsPage.tsx:395-399 | choosing an account clears the file and the error, so Submit is disabled |
| FileStatements.Page.ChooseFile | src/pages/FileStatementsPage.tsx:421-437 | a file is refused, with the message, iff the allowed list is non-empty and the non-empty extension is outside it; otherwise it is taken. Afterwards Submit (line 450) is enabled iff an account is chosen and an accepted file was picked |
| FileStatements.Page.SubmitUpload | src/pages/FileStatementsPage.tsx:352-387 | the upload is sent iff an account and a file are chosen, so always when Submit was enabled. A non-2xx reply shows the failure message and keeps the form. Success resets the form and drops only that account's cached file list. Either way Submit is disabled afterwards |
| FileStatements.Page.FilesLoaded | src/pages/FileStatementsPage.tsx:321 | only that tab's file list changes |
| FileStatements.Page.TransactionsLoaded | src/pages/FileStatementsPage.tsx:138-139 | only that file's transactions change, normalised by `TransactionsOf` |
| FileStatements.Page.FilesRefreshed | src/pages/FileStatementsPage.tsx:251-275 | with an active tab, its list is replaced and the selection re-chosen by `Reselect`; with none, nothing changes |
| ResolveDialog.ResolvedAccountType | src/components/resolve-dialog.tsx:31-42 | the first account with the given non-empty id, if its type is non-empty, supplies the type. Otherwise the prop is used, or `''` when it is missing, and the result is empty only then or when the prop is empty |
| ResolveDialog.AmountColour | src/components/resolve-dialog.tsx:115-117 | non-credit-card accounts are green iff the amount is non-negative, and credit cards (any letter case) are red iff it is |
| ResolveDialog.CreditCardColourFlipped | src/components/resolve-dialog.tsx:115-117 | for every amount, a credit card gets the opposite colour of any other account type |
| ResolveDialog.PayloadFor | src/components/resolve-dialog.tsx:238-249 | the seven base fields are always set, to the given transaction and choices. Subcategory and remarks are present iff non-empty, with those values. The transfer target is present iff the type is `transfer` and a target is chosen, with that target |
| ResolveDialog.BuildPayload | src/components/resolve-dialog.tsx:238-249 | the step-by-step construction builds exactly `PayloadFor` |
| ResolveDialog.ToggleTarget | src/components/resolve-dialog.tsx:198 | clicking the selected account clears the target, and clicking any other selects it |
| ResolveDialog.ToggleTwice | src/components/resolve-dialog.tsx:198 | two clicks on the same unselected account leave no target |
| ResolveDialog.Dialog.constructor | src/components/resolve-dialog.tsx:55-60 | no catalogue, no choice, not submitting |
| ResolveDialog.Dialog.Categories | src/components/resolve-dialog.tsx:84-88 | no categories until a type is chosen and the catalogue is loaded; then the chosen type's categories, or none when the type is not in the catalogue or has no list |
| ResolveDialog.Dialog.Subcategories | src/components/resolve-dialog.tsx:89-93 | no subcategories until a type and a category are chosen; then exactly the chosen type's list, or none when it has no list |
| ResolveDialog.Dialog.CanResolve | src/components/resolve-dialog.tsx:227-232 | Resolve is enabled iff a type and a category are chosen, a subcategory is chosen whenever the type offers any, and nothing is being submitted |
| ResolveDialog.Dialog.Open | src/components/resolve-dialog.tsx:62-81 | opening clears every choice and loads the catalogue, so Resolve starts disabled |
| ResolveDialog.Dialog.ChooseType | src/components/resolve-dialog.tsx:135-140 | a new type resets category, subcategory and transfer target |
| ResolveDialog.Dialog.ChooseCategory | src/components/resolve-dialog.tsx:159-163 | a new category resets subcategory and transfer target |
| ResolveDialog.Dialog.ChooseSubcategory | src/components/resolve-dialog.tsx:180 | sets the subcategory |
| ResolveDialog.Dialog.SetRemarks | src/components/resolve-dialog.tsx:215 | sets the remarks |
| ResolveDialog.Dialog.ClickTarget | src/components/resolve-dialog.tsx:198 | the target toggles as `ToggleTarget` says |
| ResolveDialog.Dialog.Resolve | src/components/resolve-dialog.tsx:233-271 | a payload is sent iff the choices are complete and an account id is given (`submitting` is not checked), so always when Resolve was enabled and an id is given. The payload is exactly `PayloadFor` of the transaction, the account id and the current choices. The dialog closes iff the reply is 2xx, and `submitting` is cleared once the reply is in |
| TransactionsPage.TotalPages | src/pages/TransactionsPage.tsx:191 | the page count is the least `n` with `total <= 15n`, so 0 transactions give 0 pages |
| TransactionsPage.DisplayedPageCount | src/pages/TransactionsPage.tsx:243 | the footer never shows 0: it shows the page count when that is non-zero and 1 when it is 0 |
| TransactionsPage.NormalizeResponse | src/pages/TransactionsPage.tsx:59-60 | a missing `data` is an empty list and a missing `total` is 0 |
| TransactionsPage.AmountText | src/pages/TransactionsPage.tsx:96-101 | the cell starts with `- ` iff the amount is negative, and the rest reads back as the magnitude |
| TransactionsPage.TypeOf | src/pages/TransactionsPage.tsx:124-135 | the cell is income, expense or transfer iff the lower-cased type is that word |
| TransactionsPage.TypeOfIgnoresCase | src/pages/TransactionsPage.tsx:124 | the type cell ignores letter case |
| TransactionsPage.OrDash | src/pages/TransactionsPage.tsx:145-150 | a non-empty value is shown as it is, anything else as `-` |
| TransactionsPage.Ledger.CanPrev | src/pages/TransactionsPage.tsx:192 | Previous is enabled iff a page before the current one exists |
| TransactionsPage.Ledger.CanNext | src/pages/TransactionsPage.tsx:193 | Next is enabled iff the transactions shown so far (15 per page) are fewer than the total |
| TransactionsPage.Ledger.constructor | src/pages/TransactionsPage.tsx:45-47 | the ledger starts on page 1 of 0, with both buttons disabled |
| TransactionsPage.Ledger.Prev | src/pages/TransactionsPage.tsx:248-249 | one page back only when enabled, and the page stays in range |
| TransactionsPage.Ledger.Next | src/pages/TransactionsPage.tsx:256-257 | one page on only when enabled, and the page stays in range |
| TransactionsPage.Ledger.Loaded | src/pages/TransactionsPage.tsx:56-60 | a 2xx reply replaces rows and total (normalised), and anything else keeps them |
| BalanceSheet.TwoDigits | src/pages/BalanceSheetPage.tsx:52-53 | a number below 100 becomes exactly two digits that read back as the number |
| BalanceSheet.DateKey | src/pages/BalanceSheetPage.tsx:50-54 | the key is the year, `-`, the padded month number (index plus one), `-`, the padded day |
| BalanceSheet.DateKeyFields | src/pages/BalanceSheetPage.tsx:50-54 | the `asOnDate` key is year, `-`, two-digit month number, `-`, two-digit day, and each field reads back as its number |
| BalanceSheet.NormalizeNetWorth | src/pages/BalanceSheetPage.tsx:60-64 | net worth is kept iff the reply's field is a number |
| BalanceSheet.Rows | src/pages/BalanceSheetPage.tsx:130-131 | an empty list shows one `-` row, and otherwise one row per account, in order |
| BalanceSheet.LiabilityLedgerSection | src/pages/BalanceSheetPage.tsx:201-216 | the liability-ledger section appears iff the field is an array |
| BalanceSheet.View.constructor | src/pages/BalanceSheetPage.tsx:35-38 | nothing loaded, no error |
| BalanceSheet.FailureMessage | src/pages/BalanceSheetPage.tsx:57-69 | a non-2xx reply reports `API error: ` and the status; a rejection reports its error's message, or `Failed to fetch balance sheet` when that is empty |
| BalanceSheet.View.Refresh | src/pages/BalanceSheetPage.tsx:40-77 | no date means no effect. No token means "Not authenticated" and no request. Otherwise the requested key is the date's `asOnDate`. A 2xx reply sets the sheet and normalised net worth. A non-2xx or rejected reply reports `FailureMessage`, drops the sheet and keeps the previous net worth. `loading` ends cleared |
| Calendar.Ordinal | src/components/calendar-22.tsx:26-34 | 4 to 20 take `th`, every negative number takes `th`, and the suffix is always one of the four |
| Calendar.OrdinalOfDays | src/components/calendar-22.tsx:26-34 | for every day 1 to 31, the rule agrees with the English suffix list (1st, 2nd, 3rd, 21st, 22nd, 23rd, 31st, th otherwise) |
| Calendar.Label | src/components/calendar-22.tsx:35 | the label is the day, its ordinal suffix, a space, the month name, `, ` and the year, so it starts with the day and suffix and ends with the year; with no date it is `Select date` |
| Calendar.Picker.constructor | src/components/calendar-22.tsx:20 | the popover starts closed |
| Calendar.Picker.Toggle | src/components/calendar-22.tsx:43 | the popover takes the requested state |
| Calendar.Picker.Select | src/components/calendar-22.tsx:59-62 | the chosen date is passed on and the popover closes |
| Lifecycle.WrittenExpiryBoundary | src/lib/fetchWithAuth.ts:25-42 | an expiry written at `t` is expired, under both `Number` and `parseInt`, iff the clock is past `t + 4h` |
| Lifecycle.BackToBackNotifications | src/App.tsx:21-40 | a second notification within four hours of a refresh refreshes again and never signs out |
| Lifecycle.ExpiryMonotone | src/App.tsx:37-40 | a later write never moves the stored expiry backwards |
| Lifecycle.RefreshThenNotification | src/lib/fetchWithAuth.ts:36-45 | after a 401 refresh in `fetchWithAuth`, a notification within four hours does not sign out |
| Lifecycle.LoginThenUnauthorized | src/pages/LoginPage.tsx:98-105 | a login stores no expiry, so its first 401 refreshes and retries with the new token |
| Lifecycle.LogoutThenFetch | src/components/layout/AppHeader.tsx:58-66 | after a completed logout a request carries `Bearer null`, and its 401 is returned without a retry |
| Lifecycle.ReadersDisagree | src/App.tsx:26-27 | the two expiry readers disagree on `"0"` and on `"12abc"`, values the application itself never writes |

## Left out

- Rendering: JSX, styling, icons, toasts, the table library and the popover and dialog widgets. Only the values they display and the state they change are modelled.
- The identity provider's SDK (reCAPTCHA, `signInWithPhoneNumber`, `confirm`, `getIdToken`, `signOut`). Each one's outcome is an input.
- The network. Each reply's status and body, or its rejection, is an input. The URL query strings and `encodeURIComponent` are not modelled.
- Text.ToLower: lower-cases ASCII letters only. JavaScript's `toLowerCase` also folds other Unicode letters and can change the length. The words compared (`creditcard`, `income`, file extensions) are ASCII, so the comparisons agree on them.
- FileStatements.Page: the page-level loading flag and error of the account-list request are not modelled. Only a loaded list (`AccountsLoaded`) is.
- Clocks. `Date.now()` readings are natural-number inputs, two per handler where the source reads the clock twice.
- Time zones and locale. `toLocaleString("en-IN")` amount grouping and decimals, the locale month name (an input of `Calendar.Label`), and the DD/MM/YYYY and DD-MM-YYYY date cells, which need `Date` parsing.
- Floating point. Amounts, balances and totals are integers.
- JavaScript number parsing outside the stored strings: whitespace, signs, exponents, hex and decimals in `Number`/`parseInt`.
- Asynchronous interleaving. Each handler is one atomic step, so a notification arriving while `fetchWithAuth` awaits is not modelled.
- Loading and error flags kept per account and per file on the statement-file page, and the upload rejection path's message. A rejected upload leaves the form as a non-2xx reply does, apart from the message text.
- FileStatements.Page.FilesLoaded: models the 2xx reply only. A failed reply leaves the list as it was and sets a per-tab error, which is not modelled.
- ResolveDialog.Dialog.Resolve: a rejected request is folded into a non-2xx status, since both leave the dialog open with `submitting` cleared.
- TransactionsPage: the account-name cell and the actions menu, which has no behaviour.
- BalanceSheet: the account name and product-name text of each row.
- The layout, the sidebar and the application entry point are not part of this model.
