# Calories AI: session logic and webhook client, modelled in Dafny

This project models the core of the Calories AI web client, a single-page
calorie tracker. A signed-in user describes a meal or picks a photo of it.
An inference service estimates the nutrition. The result is added to a
history kept in browser storage and forwarded to a data webhook. A free
account may run three analyses per calendar day. A paid (PRO) account is
unlimited, and a status webhook reports which plan the account holds.

The model has five modules:

- `Js` (js.dfy): the JavaScript values a parsed JSON body can hold,
  truthiness, property reads, and the string built-ins the client calls
  (`trim`, `toUpperCase`, `includes`, `split`, `startsWith`).
- `Types` (types.dfy): the records of `types.ts` plus the toast
  notification.
- `GeminiService` (gemini_service.dfy): the service layer. It covers the
  two-tier webhook transport (`attemptFetch`), the reading of the plan
  status, the checkout-URL extraction, the data-sync payload and the
  request parts sent to the inference service. Every network round trip
  is an input value, so each operation is a total function of its
  outcomes.
- `AppLogic` (app_logic.dfy): the state updaters of `App.tsx` as pure
  functions. They cover the quota gate and its daily rollover, quota
  consumption, the repair of a restored record, the plan merge, the stable
  login id, the free-uses badge, and the toasts for the webhook result and
  the checkout redirect.
- `AppSession` (app_session.dfy): the screen as a `Session` class.
  - Its React state is one `Screen` record. React commits the state
    updates of one handler together, so each handler step replaces the
    record as a whole.
  - Beside it live the storage keys (`Store`) and the address bar
    (`Location`).
  - Every handler keeps the invariant `Valid()`: the login view shows
    exactly when no one is signed in, and storage mirrors the signed-in
    record and the history.
  - A remote call's outcome is a parameter of the step that consumes it.
    The status sync is two steps (`StartSync`, `FinishSync`), and the
    webhook's answer to a data sync is a step of its own (`SyncDelivered`).
    `Analyze` and `Upgrade` each run a whole handler, awaits included, as
    one step.

"Today" is a parameter everywhere. The code takes it from the UTC ISO date
(`new Date().toISOString().split('T')[0]`, App.tsx:65 and App.tsx:159).
A day here is the UTC day of the ISO date string, not the user's local
day: the day boundary is the one of the date string the caller passes in.

## Model

| member | source | states |
|---|---|---|
| Js.Field | services/geminiService.ts:168 | a property read yields `undefined` on anything that is not an object and for a missing key |
| Js.Or | services/geminiService.ts:168 | `a \|\| b` is truthy iff either operand is, and is one of the two operands |
| Js.Trim | services/geminiService.ts:169 | `trim` gives a slice no longer than the input; it is empty iff the input is all whitespace; a non-empty result neither starts nor ends with whitespace |
| Js.TrimPadded | services/geminiService.ts:169 | trimming whitespace padding off a core that has none at its ends gives back exactly that core |
| Js.ToUpper | services/geminiService.ts:169 | the model's `toUpperCase` keeps the length and maps each character on its own (ASCII letters to upper case, everything else unchanged) |
| Js.Includes | services/geminiService.ts:190 | `includes` holds iff the substring occurs at some position |
| Js.StartsWith | App.tsx:248 | `startsWith(p)` holds iff `p` occurs at position 0 |
| Js.Split | services/geminiService.ts:49 | `split` on one character: at least one part, no part holds the separator, and joining the parts gives the input back |
| Js.SplitAfterHead | services/geminiService.ts:49 | splitting at a separator absent from the head yields the head followed by the parts of the tail |
| GeminiService.PrimaryErrorMessage | services/geminiService.ts:230 | the kept message is an Error's own message, and "Network error" for a thrown value that is not an Error |
| GeminiService.ReadBody | services/geminiService.ts:187-194 | the body is parsed as JSON iff a content-type header mentions application/json; otherwise it is the text, and a read error passes through |
| GeminiService.AttemptFetch | services/geminiService.ts:179-234 | one or two requests; the standard one comes first; the fallback goes to the same URL with the same payload; success always carries data; with a fallback, success iff the fallback went out; a message is always present |
| GeminiService.AnsweredIsReported | services/geminiService.ts:196-208 | when the standard request answers readably, no fallback is sent, `success` is the `ok` flag, the body is the data, and the message is "Success" or "Request failed: " plus the status text |
| GeminiService.BodyFollowsContentType | services/geminiService.ts:187-194 | the reported data is the parsed JSON under a JSON content type and the raw text otherwise |
| GeminiService.FallbackOnlyWhenPrimaryThrows | services/geminiService.ts:210-225 | the opaque fallback is sent iff the standard request (or the reading of its body) throws, and then exactly once |
| GeminiService.OpaqueFallbackSucceeds | services/geminiService.ts:213-225 | a fallback that goes out is reported as success with `{info: "no-cors mode"}` and the opaque message |
| GeminiService.BothThrowReportsPrimaryError | services/geminiService.ts:227-232 | when both requests throw, the result is a failure without data carrying the first error's message or "Network error"; the fallback's error never shows |
| GeminiService.ExtractPlan | services/geminiService.ts:168 | the candidate plan is `data.plan`, `data.userPlan`, the data itself or null, and it is truthy iff one of the three sources is |
| GeminiService.NormalisedPlanText | services/geminiService.ts:169 | a plan that is not a string normalises to ""; a string never grows, and an all-whitespace one normalises to "" |
| GeminiService.PlanFromData | services/geminiService.ts:168-172 | data names PRO iff its extracted plan is a string reading "pro" in any mix of cases with only whitespace around it |
| GeminiService.PlanStatus | services/geminiService.ts:167-175 | PRO only from a successful response with truthy data; a failed response reads as FREE |
| GeminiService.FetchUserPlanStatus | services/geminiService.ts:158-176 | fetchUserPlanStatus reports PRO only when the standard request answered readably with a 2xx status; an opaque fallback never yields PRO |
| GeminiService.ExtractionOrder | services/geminiService.ts:168 | the plan is taken from `plan`, then `userPlan`, then the data itself when it is a string; a falsy candidate passes to the next |
| GeminiService.NonStringPlanShadows | services/geminiService.ts:168-169 | a truthy `plan` that is not a string hides any `userPlan`, and the result is FREE |
| GeminiService.NormalisesToProIff | services/geminiService.ts:169-170 | a string plan normalises to "PRO" iff it is "pro" in any mix of cases with only whitespace around it |
| GeminiService.ProInEveryPlace | services/geminiService.ts:168-172 | such a string reads as PRO under `plan`, under `userPlan` and as the bare data |
| GeminiService.ProWordAlone | services/geminiService.ts:168-172 | "pro" in any mix of cases, unpadded, reads as PRO in all three places |
| GeminiService.ProExamples | services/geminiService.ts:168-172 | `{plan: " Pro "}`, `"pro"` and `{userPlan: "PRO"}` read as PRO |
| GeminiService.FreeExamples | services/geminiService.ts:168-175 | "premium", an empty plan and a plan that is not a string read as FREE |
| GeminiService.PlanStatusProIff | services/geminiService.ts:158-176 | the plan status is PRO iff the response succeeded with truthy data whose extracted plan is a padded, case-insensitive "pro" |
| GeminiService.OutageReadsAsFree | services/geminiService.ts:166-175 | as written, an unreachable status endpoint reads as FREE whatever the fallback does; the reconciled reading gives no plan |
| GeminiService.ReconciledPlan | services/geminiService.ts:158-176 | a plan is reported iff the standard request answered readably with a 2xx status, and it is then the plan that fetchUserPlanStatus reads |
| GeminiService.SyncPayloadFor | services/geminiService.ts:112-119 | the sync payload carries the entry, user id, email, plan and timestamp as given, with source "CaloriesAI_Web_Client" |
| GeminiService.SyncToWebhook | services/geminiService.ts:101-124 | every request made goes to the data webhook with that payload |
| GeminiService.CheckoutUrl | services/geminiService.ts:140-155 | a returned URL is truthy, comes from a response whose JSON was read, and is either `data.url` or `data.data.url` |
| GeminiService.CheckoutUrlSelection | services/geminiService.ts:150-153 | a truthy top-level `url` wins; otherwise a truthy `data.url`; with neither the call fails with "No URL returned from webhook" |
| GeminiService.StripDataUrlPrefix | services/geminiService.ts:49 | the image is kept whole, or replaced by a non-empty comma-free piece that follows a comma in it; an image without a comma is kept whole |
| GeminiService.StripDataUrlPrefixSpec | services/geminiService.ts:47-49 | "header,payload" loses its header; a string without a comma, or with nothing after it, is kept whole |
| GeminiService.PromptText | services/geminiService.ts:60-62 | the description prompt quotes the text when there is some; otherwise it is the image prompt |
| GeminiService.PromptQuotesText | services/geminiService.ts:60-62 | a description appears verbatim between double quotes in its prompt, and that prompt is never the image prompt |
| GeminiService.RequestParts | services/geminiService.ts:44-64 | an image part (header stripped, labelled JPEG) comes first iff a non-empty image is given; the prompt is always last |
| Types.DetailOf | App.tsx:259 | an Error contributes its message, a TypeError the engine's message, and any other thrown value the fallback text |
| AppLogic.InitialUser | App.tsx:22-31 | INITIAL_USER with the given id: FREE, no uses, dated the day the module was loaded |
| AppLogic.FreshUserHasFullQuota | App.tsx:22-31 | a freshly signed-in user shows 3 free uses and passes the gate, which re-dates the record to today |
| AppLogic.Take8 | App.tsx:62 | `slice(0, 8)` is the prefix of length min(8, length) |
| AppLogic.CheckLimit | App.tsx:155-170 | refusal without a user; only the counter and its date may change; the modal opens iff a signed-in user is refused; a FREE user passes only with room today; a refusal means a FREE user at the limit today |
| AppLogic.CheckLimitNoUserOrPro | App.tsx:156-157 | no user is refused; a PRO user passes with the record untouched |
| AppLogic.CheckLimitRollsOver | App.tsx:159-163 | a FREE user dated another day passes, and the counter restarts at 0 for today |
| AppLogic.CheckLimitSameDay | App.tsx:165-169 | on today's date a FREE user is refused with the modal at 3 or more uses and passes untouched below 3 |
| AppLogic.ConsumeQuota | App.tsx:196-202 | a successful analysis adds exactly one use and changes nothing else; no record stays no record |
| AppLogic.PrependEntry | App.tsx:194 | the new entry comes first and the old entries follow in their order |
| AppLogic.GateThenConsumeStaysWithinQuota | App.tsx:155-202 | a FREE user let through by the gate stays within 3 uses for today after the use is recorded |
| AppLogic.RunDayCountsSuccesses | App.tsx:155-202 | over a day started within the quota, the counter ends at min(3, start + successful analyses): failures never consume and nothing is counted past the limit |
| AppLogic.RunFreshDay | App.tsx:159-163 | a day whose stored date is stale ends at min(3, successes), whatever the stored counter held |
| AppLogic.RemainingFreeUses | App.tsx:303 | the badge is never negative, at most 3 for a valid counter, 0 without a user, and positive iff uses remain |
| AppLogic.BadgeAgreesWithGate | App.tsx:303 | for a FREE user dated today, the gate passes iff the badge shows a use left, and a recorded use takes one off the badge |
| AppLogic.RestoreUser | App.tsx:58-69 | the restored record is dated today with a non-empty id; a missing id becomes "usr_restored_" plus 8 uuid characters; the counter is kept on the same day and reset otherwise; nothing else changes |
| AppLogic.RestoreIsIdempotent | App.tsx:58-69 | restoring a record already restored today changes nothing, whatever uuid the second restore draws |
| AppLogic.RestoredGate | App.tsx:58-69 | a restored FREE record passes the gate iff the badge shows a use left, and the gate leaves it unchanged |
| AppLogic.MergePlan | App.tsx:104-113 | no record stays no record; otherwise only the plan takes the fetched value, and the "PRO plan is active" toast is raised iff the plan changes to PRO |
| AppLogic.MergeIsIdempotent | App.tsx:104-113 | merging the same plan again changes nothing and raises nothing; merging the cached plan is a no-op |
| AppLogic.DowngradeIsSilent | App.tsx:106-110 | a PRO record merged with FREE becomes FREE without a toast |
| AppLogic.ProAnswerUpgradesCache | App.tsx:101-113 | a status answer `{plan: "PRO"}` turns a cached FREE record into PRO with one success toast |
| AppLogic.ApplyReconciled | App.tsx:104-116 | an unread status leaves the record and the toast as they are; a read plan is merged as above |
| AppLogic.OutageDowngradesPro | App.tsx:100-116 | as written, an unreachable status endpoint silently downgrades a cached PRO record; the reconciled path leaves it PRO |
| AppLogic.LoginId | App.tsx:123-127 | a stored non-empty stable id is reused; otherwise "google_uid_" plus 8 uuid characters is minted and stored; afterwards storage holds exactly the id in use |
| AppLogic.LoginIdIsStable | App.tsx:123-127 | a second login reuses the first login's id, whatever uuid it draws |
| AppLogic.InputReady | App.tsx:176-177 | text input needs a character that is not whitespace; image input needs a non-empty image |
| AppLogic.ImageOrAbsent | App.tsx:189 | `selectedImage \|\| undefined` keeps exactly the non-empty image |
| AppLogic.NewEntry | App.tsx:185-191 | the entry carries the given id, timestamp, text and result, and the image only when there is one |
| AppLogic.SuccessMessage | App.tsx:212 | the success message is never empty: the response's own message when non-empty, else "Analysis saved to cloud." |
| AppLogic.DataDetails | App.tsx:213-215 | details appear iff the data is an object or array without a truthy `message`, and then as that JSON value |
| AppLogic.WebhookToastAsWritten | App.tsx:208-227 | as written, the handler raises no toast iff a success carries a null body |
| AppLogic.WebhookToast | App.tsx:208-227 | a success raises a success toast with `message \|\| 'Analysis saved to cloud.'`; a failure raises the "Cloud sync pending" info toast; details appear only as the JSON of a success's data; it agrees with the written handler wherever that raises a toast |
| AppLogic.NullBodyLosesToast | App.tsx:213 | a 2xx JSON body `null` raises no toast as written and the success toast as intended |
| AppLogic.UpgradeResult | App.tsx:245-262 | a redirect happens only to a string URL starting with "http" that the checkout returned, and always for one; any other result becomes the checkout error toast with details |
| AppLogic.UpgradeRefusals | App.tsx:248-262 | a URL without the "http" prefix is refused with its text in the details; a missing URL reports "No URL returned from webhook" |
| AppSession.Persisted | App.tsx:87-93 | the persistence effects write a signed-in record (never a null one) and the history, leave the stable id alone, and restore the storage mirror |
| AppSession.AnalyzeNext | App.tsx:172-237 | handleAnalyze's transition: the history grows by one entry at the front iff the guards pass and the inference succeeds, and is unchanged otherwise; sign-in state, input method and upgrade flag are kept |
| AppSession.AnalyzeSuccess | App.tsx:179-205 | a successful analysis prepends exactly one entry ahead of the old ones in order, records one use on the gated record and changes nothing else in it, shows the entry, clears the inputs and keeps the toast |
| AppSession.AnalyzeWithoutResult | App.tsx:173-236 | a refusal, a blank input or a failed inference leaves the history as it was and records no use; a failure raises the error toast; a refusal of a signed-in user opens the modal |
| AppSession.AnalyzeStaysWithinQuota | App.tsx:155-202 | one analysis keeps a FREE record within the quota for today |
| AppSession.Session.Mount | App.tsx:52-93 | mounting restores and repairs the stored record, leaves the login view only with a record, raises the payment notice and clears the query only for `payment=success` with a record, starts a sync, loads the history and persists |
| AppSession.Session.CheckLimit | App.tsx:155-170 | returns the gate's verdict, leaves the gated screen and persists it |
| AppSession.Session.EditInput | App.tsx:364-370 | the input controls change only the input method, text and image |
| AppSession.Session.ShowUpgradeModal | App.tsx:315-332 | the modal buttons change only the modal flag |
| AppSession.Session.DismissNotification | App.tsx:310 | closing the toast changes only the toast |
| AppSession.Session.Analyze | App.tsx:172-237 | the screen becomes the analyze transition; the inference request is sent iff the guards pass, with the old inputs; the sync payload is produced iff the analysis succeeded and carries the record as it was before the gate |
| AppSession.Session.SyncDelivered | App.tsx:207-227 | the webhook answer replaces the toast with the corrected mapping's toast (`WebhookToast`) and changes nothing else |
| AppSession.Session.StartSync | App.tsx:95-99 | the sync flag rises iff someone is signed in |
| AppSession.Session.FinishSync | App.tsx:100-118 | the reconciled plan is merged; only the plan of the record can change; the flag drops; an unread status changes nothing but the flag |
| AppSession.Session.Login | App.tsx:121-133 | the user becomes INITIAL_USER with the stable id; the login view closes; a sync starts; storage holds the record, the history and the id |
| AppSession.Session.Logout | App.tsx:135-142 | no user, empty history, login view; storage keeps only the empty history list and the stable id |
| AppSession.Session.Upgrade | App.tsx:239-263 | without a user nothing happens; otherwise the checkout request is made, and either the address moves to the URL with the progress flag up, or the error toast is raised and the flag drops |

## Left out

- The inference service call (services/geminiService.ts:66-88): its answer is an input of `Session.Analyze` (`Result<NutritionalData>`); the response schema and the JSON parse of its text are not modelled.
- `fetch`, response headers and bodies: each request's outcome is an input datatype (throws, or responds with a status, a content type and what each body read gives). A JSON syntax error while reading the body counts as a throw inside the standard request's `try`, so it leads to the fallback.
- Browser storage: a `Store` record of the three keys, holding parsed values. A stored string that does not parse as JSON (which would crash the mount) and a stored empty string are not modelled.
- `window.location` and `window.history.replaceState`: only the `payment` query parameter and the redirect target are kept. The callback URL of the checkout is a parameter of `Session.Upgrade`.
- `FileReader` and the image upload: the picked image reaches the model as the data-URL string given to `Session.EditInput`.
- `console` logging.
- `uuidv4()`, `Date.now()` and `new Date()`: the fresh id, timestamp, sync time and today's date are parameters.
- The module-load date of INITIAL_USER is the `loadDate` constant of the session.
- AppSession.Session.Analyze: runs all of handleAnalyze (App.tsx:172-237) as one step, with the inference outcome as a parameter. The in-flight screen (`isAnalyzing` up, the result cleared) is not a model state, and no other handler (a status sync finishing, a logout, a toast dismissal) can run during an analysis.
- AppSession.Session.Upgrade: runs all of handleUpgrade (App.tsx:239-263) as one step, with the checkout outcome as a parameter. The screen with `isUpgrading` up before the checkout answers is not a model state, and no other handler can run in between.
- React scheduling: handlers run one at a time, and each handler step is one commit. Overlapping status syncs and a webhook answer arriving after a logout are not modelled.
- The 5-second auto-dismiss timer of the toast and all rendering (components/NotificationToast.tsx, components/PlanUpgradeModal.tsx, components/NutritionChart.tsx).
- The calorie and macro numbers: kept as opaque reals; nothing computes with them.
- Js.ToUpper: maps the ASCII letters only, one character to one character; JavaScript's `toUpperCase` also maps other letters and can lengthen a string ("ß" becomes "SS"). Other characters are kept as they are. The plan comparison looks only for "P", "R" and "O", so the Unicode case mappings of other letters are not modelled.
- `JSON.stringify` formatting of toast details: a detail holds the JSON value itself.
- The message of a TypeError raised by the engine is named by its cause, not by the engine's wording.
- AppSession.Session.FinishSync: takes the plan that `GeminiService.ReconciledPlan` computes from the transport outcomes as its parameter, rather than the transport outcomes themselves.
- AppSession.Session.SyncDelivered: applies the corrected mapping `AppLogic.WebhookToast`. As written (App.tsx:213, 225-227), a 2xx answer whose JSON body is `null` throws inside `.then` and keeps the old toast; the method raises the success toast instead (see Findings). It also takes the `WebhookResponse` that `GeminiService.SyncToWebhook` returns for the payload `Session.Analyze` produced; the pairing of the two steps is left to the caller.

## Findings

| source | as written | input that shows it | evidently intended | confidence | as-written member | corrected member |
|---|---|---|---|---|---|---|
| services/geminiService.ts:166-175 | every failure to read the status (both requests throw, only the opaque fallback goes out, a non-2xx answer) reads as FREE, so the merge at App.tsx:104-113 silently turns a cached PRO record into FREE; the `catch` at App.tsx:114-116 that would keep the cache is unreachable because `attemptFetch` never throws | a cached PRO user whose status request throws (network down), with either fallback outcome | a status that cannot be read leaves the cached plan as it is | medium, not executed | GeminiService.OutageReadsAsFree, AppLogic.OutageDowngradesPro | GeminiService.ReconciledPlan, AppLogic.ApplyReconciled |
| App.tsx:213 | `typeof null === 'object'`, so a successful sync with a JSON `null` body reaches `response.data.message`, which throws; the `.catch` only logs, and no toast appears | the data webhook answers 2xx, content type application/json, body `null` | the success toast, without details | high, not executed | AppLogic.WebhookToastAsWritten, AppLogic.NullBodyLosesToast | AppLogic.WebhookToast |
