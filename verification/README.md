# Prompt-optimizer web client: a Dafny model

This project models the client-side logic of a Next.js front end for a
prompt-compression API. It covers:

- the session on the playground page: an API key mirrored into browser storage under `ps_api_key`, the profile fetched for it, and the handlers that use the key;
- the sign-in dialog (views login, signup, verify and forgot);
- the upgrade dialog (select a plan, pay, confirm or pending review, and the UTR field);
- the change-password dialog and the password-reset page;
- the cookie-consent banner;
- the analytics panel (chart data, timestamp normalisation, top-five leaderboard);
- the code-snippet panel (endpoint, escaping, the three language templates).

Every network call is replaced by the reply it receives, given as a parameter
of type `Common.Response`. A reply is one of two things:

- a failed request, carrying the thrown error's message;
- a received reply, carrying a status, a status text, a content type and a body. The body either parses (with its `detail` field, `""` when absent) or fails to parse (with the parser's message).

`Common.JsonThenCheck` captures the pattern most handlers share: parse the body, then throw `detail || fallback` on a non-2xx status.

State the source updates in place is modelled by classes:

- `Home.Session`
- `Auth.AuthModal`
- `Subscription.SubscriptionModal`
- `ChangePassword.ChangePasswordModal`
- `ResetPassword.ResetPasswordForm`
- `Cookies.CookieBanner`
- `Snippets.SnippetPanel`

Browser storage is a `map<string, string>` field. The dialogs split each submit in two:

- `Submit` captures the request and sets `loading`;
- `Complete(reply)` applies the reply.

Each dialog's `Valid()` keeps `loading` true exactly while a request is outstanding. The page's handlers run as one atomic step each, with the reply as a parameter. The key-dependent effects of the page run only when the key's value changes, as React's dependency check does.

The sign-in dialog records the keys it hands to the page's `onSuccess`. `Auth.AuthModal.Complete` states that a successful signup hands over nothing (`emitted` is unchanged on that branch), that a successful login appends the key its reply returned, and that a successful verification appends the key held since the signup reply. A signup's key is therefore never handed over before verification. `Auth.SignupThenVerify` walks through that sequence.

Pure code is modelled as functions and lemmas. This covers the UTR sanitiser, the analytics pipelines, the escaping and the snippet templates.

## Model

| member | source | states |
|---|---|---|
| Common.JsonThenCheck | src/components/AuthModal.tsx:83-87 | a reply succeeds exactly when it is 2xx and its body parses; otherwise the outcome carries the network error's message, the parse error, or `detail` falling back to the given message |
| Common.PasswordProblem | src/components/ChangePasswordModal.tsx:27-35 | both checks pass exactly when the confirmation matches and the length reaches the minimum; a mismatch is reported before a short password |
| Common.DigitsAreNotBlank | src/components/SubscriptionModal.tsx:79 | a non-empty string of digits is never blank under `trim()` |
| Common.IndexOf | src/app/reset-password/page.tsx:52 | `indexOf` returns -1 exactly when the substring occurs nowhere, and otherwise its first occurrence |
| Common.DecimalString | src/app/page.tsx:191 | the status number in the error message is written as non-empty decimal digits without a leading zero whose value is the status |
| Home.OptimizeOutcome | src/app/page.tsx:186-207 | success exactly on a parsed 2xx reply, and then provider `"none"`, the fixed no-execution output, the requested model and the reply's texts and tokens; a non-2xx parsed reply gives `detail` or "Request failed with status N"; an unparsable body gives the parser's message |
| Home.ExecuteOutcome | src/app/page.tsx:247-257 | success exactly on a parsed 2xx reply, with the body shown unchanged; any non-2xx reply gives `detail` or the status message even when its body does not parse |
| Home.SavingsPercent | src/app/page.tsx:268-275 | 0 without a result or with no raw tokens; otherwise the integer nearest to the exact saved percentage, an exact half rounded up (see "## Left out" for where the page's double-precision result differs) |
| Home.RoundedPercentInRange | src/app/page.tsx:268-275 | a rounded percentage of a saving between 0 and the raw count lies in [0, 100] and hits 0 and 100 exactly at the ends |
| Home.SavingsPercentInRange | src/app/page.tsx:268-275 | with 0 <= compressed <= raw the percentage shown lies in [0, 100]; no saving shows 0 and a full saving shows 100 |
| Home.Session.constructor | src/app/page.tsx:37-40 | the key is the stored `ps_api_key` when one is stored and `""` otherwise; a loaded key sends a `/me` request |
| Home.Session.SetApiKey | src/app/page.tsx:43-70 | a changed non-empty key is written to storage and sends `/me`; a changed empty key clears the profile and keeps the stored copy; an unchanged key triggers nothing |
| Home.Session.OnMeReply | src/app/page.tsx:48-61 | 401/403 empty the key, remove the stored copy and clear the profile, whatever the prior state; any other reply keeps the key and storage; a parsed 2xx sets the profile, a network error or unparsable body clears it, other non-2xx replies leave it |
| Home.Session.Logout | src/app/page.tsx:336 | the key is emptied and `ps_api_key` removed from storage |
| Home.Session.EnterKey | src/app/page.tsx:351-358 | the typed key becomes the key, is stored when non-empty and sends `/me` exactly when non-empty |
| Home.Session.OpenAuthModal | src/app/page.tsx:346 | the sign-in dialog is shown |
| Home.Session.CloseAuthModal | src/app/page.tsx:704 | the sign-in dialog is hidden |
| Home.Session.OnAuthSuccess | src/app/page.tsx:705-708 | the dialog's key is adopted as `SetApiKey` does (storage, pending `/me` request and profile follow the key's change, and stay put when it is unchanged) and the dialog is hidden |
| Home.Session.OnSubscriptionSuccess | src/app/page.tsx:724-730 | only a non-empty new key is adopted as `SetApiKey` does and sends the extra `/me` request; `null` or an empty key changes nothing |
| Home.Session.OnRefreshReply | src/app/page.tsx:731-732 | a parsed 2xx body becomes the profile, any non-2xx reply (401/403 included) clears it and never revokes the key, a failed or unparsable reply changes nothing |
| Home.Session.RotateKey | src/app/page.tsx:108-128 | nothing is sent unless confirmed; the request carries the current key; only a parsed 2xx reply's key is adopted as `SetApiKey` does, and every other case leaves key, storage, `/me` request and profile as they were |
| Home.Session.FetchHistory | src/app/page.tsx:137-165 | the key header is sent only with a key; 401/403 empty the key, remove the stored copy and report the expired session; other failures report their message (`Failed to fetch: ` plus the status text for a non-2xx) and keep the key, storage, `/me` request, profile and loaded rows; a parsed 2xx replaces the rows |
| Home.Session.Optimize | src/app/page.tsx:167-217 | blank input does nothing; otherwise the request carries the key only when there is one and the shown result or error is exactly the optimize outcome |
| Home.Session.Execute | src/app/page.tsx:219-266 | blank input does nothing; with no key the error "API Key is required" is shown and no request is sent; otherwise the request carries the key and the provider key only when given, and the shown result or error is the execute outcome |
| Auth.RequestFor | src/components/AuthModal.tsx:31-81 | each view sends its own request: forgot the e-mail, verify the code with the held signup key, login and signup the e-mail and password |
| Auth.AuthModal.constructor | src/components/AuthModal.tsx:12-21 | the dialog starts on the login view with empty fields, nothing loading and nothing handed over |
| Auth.AuthModal.Open | src/components/AuthModal.tsx:23 | the dialog is shown |
| Auth.AuthModal.Close | src/components/AuthModal.tsx:121 | the dialog is hidden |
| Auth.AuthModal.Edit | src/components/AuthModal.tsx:136-187 | the form fields take the typed values |
| Auth.AuthModal.Follow | src/components/AuthModal.tsx:222-241 | a link moves only login to signup or forgot, signup to login, and verify or forgot to login |
| Auth.AuthModal.Submit | src/components/AuthModal.tsx:25-29 | error and message are cleared, loading is set and the current view's request is sent; not callable while loading or with a required field empty |
| Auth.AuthModal.Complete | src/components/AuthModal.tsx:31-102 | loading ends; login success hands its key over and closes; verify success hands over the held signup key and closes; signup success stores the key, moves to verify and hands nothing over; forgot success shows the server message; any failure shows `detail` or the branch's fallback and changes no view and no key |
| Subscription.Digits | src/components/SubscriptionModal.tsx:261 | the result is made of digits only, is no longer than the input, and is the input itself when that is all digits |
| Subscription.DigitsAppend | src/components/SubscriptionModal.tsx:261 | keeping the digits of a concatenation keeps the digits of each part |
| Subscription.SanitizeUtr | src/components/SubscriptionModal.tsx:261 | the kept UTR is digits only, at most 12 long, a prefix of the input's digits, and exactly min(12, number of digits) long |
| Subscription.SanitizeIdempotent | src/components/SubscriptionModal.tsx:261 | sanitizing a sanitized value changes nothing |
| Subscription.SanitizeKeepsValidInput | src/components/SubscriptionModal.tsx:261 | up to 12 digits are kept as typed |
| Subscription.SanitizeExtends | src/components/SubscriptionModal.tsx:261 | typing more never rewrites what was kept: the kept value of a prefix is a prefix of the kept value of the whole |
| Subscription.EnabledUtrIsNotBlank | src/components/SubscriptionModal.tsx:283 | whenever the verify button is enabled (not loading, 12 characters) the handler's blank check passes |
| Subscription.SubscriptionModal.constructor | src/components/SubscriptionModal.tsx:13-18 | the dialog starts on the select step with no plan, no intent, an empty UTR and nothing loading |
| Subscription.SubscriptionModal.Open | src/components/SubscriptionModal.tsx:20 | the dialog is shown |
| Subscription.SubscriptionModal.Close | src/components/SubscriptionModal.tsx:131 | the dialog is hidden |
| Subscription.SubscriptionModal.SelectPlan | src/components/SubscriptionModal.tsx:51-64 | the plan is recorded, the error cleared and loading set before the request with the plan and the key is sent |
| Subscription.SubscriptionModal.CompleteSelectPlan | src/components/SubscriptionModal.tsx:66-75 | a parsed 2xx reply stores the intent and moves to pay; any failure shows the fixed init-failure message and keeps the step |
| Subscription.SubscriptionModal.TypeUtr | src/components/SubscriptionModal.tsx:261 | the field holds the sanitized input |
| Subscription.SubscriptionModal.Back | src/components/SubscriptionModal.tsx:276 | pay goes back to select |
| Subscription.SubscriptionModal.ConfirmPayment | src/components/SubscriptionModal.tsx:78-99 | a blank UTR shows the "enter the UTR" message and sends nothing; otherwise the plan, UTR and payment id are sent with the key |
| Subscription.SubscriptionModal.PressVerify | src/components/SubscriptionModal.tsx:281-283 | the button, enabled only when nothing is loading and the UTR has 12 characters, always sends the confirmation, and that request carries exactly 12 digits |
| Subscription.SubscriptionModal.CompleteConfirm | src/components/SubscriptionModal.tsx:101-117 | `pending_verification` hands `null` over, clears the intent and moves to pending; any other parsed 2xx hands over the new key, clears the intent and moves to confirm; a failure shows the message (or the contact-support text) and keeps step, intent and UTR |
| ChangePassword.ChangePasswordModal.constructor | src/components/ChangePasswordModal.tsx:12-18 | fields and messages start empty, nothing loading |
| ChangePassword.ChangePasswordModal.Open | src/components/ChangePasswordModal.tsx:20 | the dialog is shown |
| ChangePassword.ChangePasswordModal.Close | src/components/ChangePasswordModal.tsx:80 | the dialog is hidden |
| ChangePassword.ChangePasswordModal.Edit | src/components/ChangePasswordModal.tsx:94-116 | the three fields take the typed values |
| ChangePassword.ChangePasswordModal.Submit | src/components/ChangePasswordModal.tsx:22-47 | error and success are cleared first; a mismatch, then a length under 8, is reported with no request; otherwise old and new password are sent with the key |
| ChangePassword.ChangePasswordModal.Complete | src/components/ChangePasswordModal.tsx:49-70 | success shows "Password changed successfully!", empties all three fields and schedules the close; failure shows `detail` or "Failed to change password" and keeps the fields |
| ChangePassword.ChangePasswordModal.CloseTimerFires | src/components/ChangePasswordModal.tsx:61-64 | the scheduled close hides the dialog and clears the success message |
| ResetPassword.ResetOutcome | src/app/reset-password/page.tsx:50-63 | success exactly on a 2xx reply whose content type contains `application/json` and whose body parses; any other content type gives the not-JSON message whatever the status; a JSON failure gives `detail` or "Failed to reset password" |
| ResetPassword.MissingContentTypeFails | src/app/reset-password/page.tsx:51-59 | a reply without a content type is refused with the not-JSON message, even when 2xx |
| ResetPassword.CharsetParameterAccepted | src/app/reset-password/page.tsx:52 | a content type that extends `application/json` (a charset parameter) is treated as JSON |
| ResetPassword.ResetPasswordForm.Shown | src/app/reset-password/page.tsx:19-25 | a missing token shows only the invalid-link notice, whatever else holds; with a token, success shows the success notice |
| ResetPassword.ResetPasswordForm.constructor | src/app/reset-password/page.tsx:11-17 | the token comes from the link; fields empty, no error, no success |
| ResetPassword.ResetPasswordForm.Edit | src/app/reset-password/page.tsx:98-109 | the two fields take the typed values |
| ResetPassword.ResetPasswordForm.Submit | src/app/reset-password/page.tsx:27-48 | callable only when the form is shown; the error is cleared, a mismatch then a length under 6 is reported with no request, otherwise the token and password are sent |
| ResetPassword.ResetPasswordForm.Complete | src/app/reset-password/page.tsx:50-73 | success sets the success state and schedules the redirect; failure shows the reset outcome's message |
| ResetPassword.ResetPasswordForm.RedirectTimerFires | src/app/reset-password/page.tsx:66-68 | the router goes to `/` |
| Cookies.CookieBanner.constructor | src/components/CookieBanner.tsx:7 | the banner starts hidden |
| Cookies.CookieBanner.Mount | src/components/CookieBanner.tsx:9-15 | after mount the banner is shown exactly when it was or no non-empty consent is stored |
| Cookies.CookieBanner.Accept | src/components/CookieBanner.tsx:17-20 | `cookie_consent` is stored as `"true"`, no other entry changes and the banner hides |
| Cookies.CookieBanner.Close | src/components/CookieBanner.tsx:44 | the banner hides and storage is untouched |
| Analytics.NormalizeTimestamp | src/components/Analytics.tsx:29 | the result ends with `Z`; it is the input when that already ends with `Z` and the input plus `Z` otherwise |
| Analytics.NormalizeIdempotent | src/components/Analytics.tsx:29 | normalizing twice equals normalizing once |
| Analytics.NormalizeKeepsPrefix | src/components/Analytics.tsx:130 | normalizing keeps the timestamp as a prefix and adds at most one character |
| Analytics.ChartTime | src/components/Analytics.tsx:26-33 | "Invalid Date" exactly when the timestamp is missing or its normalized text does not parse; otherwise the hour and minute of the normalized timestamp |
| Analytics.TableTime | src/components/Analytics.tsx:127-132 | "N/A" exactly when the timestamp is missing, "Invalid Date" exactly when it is present and does not parse; otherwise the full date and time of the normalized timestamp |
| Analytics.TimeCellsShareInstant | src/components/Analytics.tsx:29-31 | the chart shows a time exactly when the table shows a date, both from the same normalized timestamp; the two cells are equal exactly when both say "Invalid Date" |
| Analytics.ChartData | src/components/Analytics.tsx:25-45 | the chart has one point per log, in reverse order, each built from the log at the mirrored position |
| Analytics.ChartCopiesFields | src/components/Analytics.tsx:38-42 | each point carries the id, raw and compressed counts of its log, and the oldest log is plotted first |
| Analytics.Insert | src/components/Analytics.tsx:116 | inserting into a list sorted by descending ratio keeps it sorted and adds exactly the one log |
| Analytics.SortByRatio | src/components/Analytics.tsx:115-116 | the sorted copy is in descending ratio order and is a permutation of the logs |
| Analytics.Leaderboard | src/components/Analytics.tsx:115-117 | min(5, number of logs) rows, in descending ratio order, a sub-multiset of the logs |
| Analytics.LeaderboardIsTop | src/components/Analytics.tsx:115-117 | no log left off the leaderboard has a higher ratio than any log on it |
| Analytics.SmallHistoryFullyListed | src/components/Analytics.tsx:117 | with at most five logs every log is on the leaderboard |
| Analytics.Show | src/components/Analytics.tsx:47-53 | the empty-history notice is shown exactly when there are no logs; otherwise the charts and leaderboard of the logs |
| Snippets.ReplaceAll | src/components/CodeSnippets.tsx:27 | replacing a character grows the text by the replacement's extra length per occurrence |
| Snippets.ReplaceAllAppend | src/components/CodeSnippets.tsx:27 | replacing distributes over concatenation |
| Snippets.Escape | src/components/CodeSnippets.tsx:27 | the two chained replacements equal escaping one character at a time: a quote becomes `\"`, a line feed `\n`, and backslashes and every other character are kept |
| Snippets.EscapeEach | src/components/CodeSnippets.tsx:27 | the one-pass escaping has no line feed, puts a backslash before every quote, and adds one character per quote and per line feed |
| Snippets.EscapeIsPerCharacter | src/components/CodeSnippets.tsx:27 | the quote pass followed by the line-feed pass equals the one-pass escaping |
| Snippets.EscapedTextShape | src/components/CodeSnippets.tsx:54 | the escaped prompt that `CurlCode` and `JsCode` embed has no line feed, a backslash before every quote and length = length + quotes + line feeds |
| Snippets.EscapeNotInjective | src/components/CodeSnippets.tsx:27 | a backslash followed by `n` and a line feed escape to the same text, which reads back as a line feed |
| Snippets.EscapeKeepsTab | src/components/CodeSnippets.tsx:27 | the escaping as written leaves a tab raw, and a JSON string holding it does not parse |
| Snippets.JsonEscape | src/components/CodeSnippets.tsx:54 | the corrected escaping holds no character below U+0020 and adds one character per backslash, quote and line feed and five per other control character |
| Snippets.JsonEscapeRoundTrip | src/components/CodeSnippets.tsx:27 | the corrected escaping always reads back as the original prompt under a JSON string reader that refuses raw control characters |
| Snippets.JsonEscapeInjective | src/components/CodeSnippets.tsx:54 | different prompts give different escaped texts |
| Snippets.CurlCode | src/components/CodeSnippets.tsx:23-31 | the cURL snippet quotes the endpoint and carries the prompt with only quotes and line feeds escaped (`Escape`), the provider and the model under their keys |
| Snippets.CurlCodeCorrected | src/components/CodeSnippets.tsx:23-31 | the same cURL snippet with the corrected escaping, so its `text` string reads back as the prompt |
| Snippets.PythonCode | src/components/CodeSnippets.tsx:33-45 | the Python snippet quotes the endpoint, embeds the prompt unescaped between triple quotes and carries provider and model verbatim |
| Snippets.JsCode | src/components/CodeSnippets.tsx:47-62 | the JavaScript snippet fetches the quoted endpoint and carries the prompt with only quotes and line feeds escaped (`Escape`), the provider and the model |
| Snippets.JsCodeCorrected | src/components/CodeSnippets.tsx:47-62 | the same JavaScript snippet with the corrected escaping |
| Snippets.EverySnippetNamesEndpoint | src/components/CodeSnippets.tsx:64-71 | whichever language is chosen, the snippet contains the quoted `origin + "/api/v1/execute"` and the provider and model verbatim |
| Snippets.SnippetCarriesPrompt | src/components/CodeSnippets.tsx:64-71 | the snippet of the chosen tab, built over `origin + "/api/v1/execute"`, carries that language's prompt entry: `"text": "` plus `Escape(prompt)` for cURL, `text: "` plus `Escape(prompt)` for JavaScript, the raw prompt in triple quotes for Python |
| Snippets.SnippetPanel.constructor | src/components/CodeSnippets.tsx:11-13 | cURL is shown first, nothing copied, origin `http://localhost:8000` |
| Snippets.SnippetPanel.Mount | src/components/CodeSnippets.tsx:15-19 | the origin becomes the page's own |
| Snippets.SnippetPanel.SelectLang | src/components/CodeSnippets.tsx:86 | the chosen tab becomes the shown language |
| Snippets.SnippetPanel.Copy | src/components/CodeSnippets.tsx:73-75 | the snippet of the shown language goes to the clipboard and the copied mark appears |
| Snippets.SnippetPanel.CopiedTimerFires | src/components/CodeSnippets.tsx:76 | the copied mark goes |

## Left out

- Network, JSON parsing and the backend: every `fetch` is replaced by the reply it gets. Stale or overlapping replies and double clicks are not modelled; each handler is atomic, or a dialog has at most one outstanding request.
- The page's `loading` and `loadingHistory` flags. With atomic handlers they are false before and after every handler.
- Timers: `setTimeout` delays (dialog close, redirect, copied mark) are modelled as a scheduled flag and a method for the timer firing. The durations are not modelled.
- `alert`, `confirm` and the clipboard API. The user's answer to `confirm` is a parameter of `RotateKey`, and the clipboard is a field of the snippet panel.
- Rendering: JSX, styling, the recharts charts, the statistics and time-series fetches of the API tab, and the page-level flags for the change-password and upgrade dialogs.
- Floating point: the cost-per-token table and derived costs, `toFixed` formatting, and the confidence-score colour thresholds. Ratios are `real` values that are only compared or copied, and NaN is not modelled.
- `Date` parsing and locale formatting. Whether a normalized timestamp parses is a parameter (`validDate`) of the analytics functions, and the two locale renderings are kept symbolic as `TimeOfDay` and `DateTime` of the normalized text. The `try`/`catch` around the parse is not modelled, since `new Date` does not throw for a string.
- String lengths are counted in characters. JavaScript counts UTF-16 code units, so a character outside the Basic Multilingual Plane counts once here and twice there, which matters only for the minimum password lengths. The UTR holds only ASCII digits, so its two lengths agree.
- `detail` is taken to be a string. `String(payload.detail)` for a non-string detail is not modelled.
- The browser's own validation. `required` fields and the terms checkbox appear as preconditions of the submit methods. `type="email"` and `maxLength={12}` are not modelled: `Auth.AuthModal.Submit` accepts any non-empty e-mail, and the `input` of `Subscription.SubscriptionModal.TypeUtr` stands for the field's value after the browser has cut it to twelve characters (pasting "UTR: 123456789012" leaves "UTR: 1234567", so the page keeps seven digits).
- The handlers' non-`Error` fallbacks ("Something went wrong" and the like) are not modelled, because every value the handlers throw is an `Error`.
- The payment confirmation sends the UTR under the key `utr`, as the code does.
- Analytics.SortByRatio: the order of logs with equal ratios is not stated in the contract. The function inserts earlier logs before equal ones, as the built-in stable sort does.
- Home.SavingsPercent: an exact half is rounded up on the exact rational value, while the page rounds a double-precision product that can land just below the half. For 40 raw and 17 compressed tokens the page shows 57 (23 / 40 * 100 is 57.49999999999999 as a double) and the model 58; for 200 raw and 171 compressed the page shows 14 and the model 15.
- Snippets.Unescape reads `\uXXXX` escapes only outside the surrogate range; surrogate pairs are not modelled.
- Quotes inside the provider or model, and a single quote that ends the shell quoting of the cURL body, are escaped by neither the snippets as written nor the corrected ones.

## Findings

| source | as written | input that shows it | evidently intended | confidence | as-written member | corrected member |
|---|---|---|---|---|---|---|
| src/components/CodeSnippets.tsx:27 | the prompt is escaped by replacing `"` with `\"` and line feeds with `\n`, but backslashes are left as they are | a prompt made of a backslash followed by `n`: it escapes to the same text as a prompt holding one line feed, and the generated request sends a line feed | the string in the snippet reads back as the prompt: escape backslashes first, then quotes and line feeds | not executed | Snippets.EscapeNotInjective | Snippets.JsonEscapeRoundTrip |
| src/components/CodeSnippets.tsx:27 | only quotes and line feeds are escaped, so a tab, a carriage return or another character below U+0020 stays raw inside the JSON string of the cURL body | a prompt holding one tab: JSON parsers refuse the body | every control character escaped (`\u00XX`), so the body parses and reads back as the prompt | not executed | Snippets.EscapeKeepsTab | Snippets.JsonEscapeRoundTrip |
