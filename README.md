# MyMadani front end, modelled in Dafny

MyMadani is a demo front end for Malaysian government subsidy services. A
citizen signs in with a MyDigital ID-style flow: consent, redirect, send
consent, a biometric check, a success modal and a launch screen. They then
see their subsidy wallets (STR, SARA, BUDI95 and others). They can pay by QR
code, barcode or fuel-pump authorisation after a face verification, chat with
an AI companion ("Marina") that can open a wallet for payment, and keep
identity documents. A VoiceOver simulation reads the screen aloud.

This project models the logic of that front end. It covers the sign-in
sequencer and its timed screens, the wallet payment overlay, the ID wallet
and its documents, the chat session and its reply classifier, the VoiceOver
tap rule, and the pure helpers (card formatting, notification sections,
image paths, the build's base path). There is one Dafny module per source
file, plus shared modules:

- `Wrappers`: `Option`.
- `Seqs`: filter, map, subsequence.
- `Strings`: lower-casing, `includes`, `trim`, decimal rendering, split.
- `Types`: the records of `types.ts`.

State that a component changes over time is a `class` whose methods are the
handlers, effects and timer callbacks. Each timer is an explicit pending
field or counter, with a method for "the timer fires" that requires it to be
pending, so a cleared timer cannot fire. Pure expressions are functions, with
lemmas relating them to independent descriptions.

Three behaviours of the code shape the model:

- The biometric verifier acquires no camera. It plays one of two recorded
  clips and always completes; there is no failure or fallback path.
- There is no transition out of the authenticated step. The sign-out row of
  the ID wallet has no handler.
- The consent countdown is display only: reaching zero changes nothing.

## Model

| member | source | states |
|---|---|---|
| App.HappyPathAuthenticates | App.tsx:60-97 | the seven sign-in callbacks, each delivered by the screen of the step before, take `login` to `authenticated` |
| App.DeclineReturnsToLogin | App.tsx:79-82 | declining at the send-consent screen returns to `login`, also when that screen was reached by the first three events |
| App.DeliverMoves | App.tsx:60-97 | every event either leaves the step unchanged, moves it exactly one place along the sign-in sequence, or (declining at send consent) returns it to `login` |
| App.OneScreenPerStep | App.tsx:257-288 | distinct steps render distinct screens, and only `authenticated` renders the main application |
| App.ScreenFor | App.tsx:257-288 | the render switch: only `authenticated` shows the main application |
| App.Callbacks | App.tsx:257-288 | every sign-in screen is handed at least one callback and the main application none; only the send-consent screen can decline |
| App.Handler | App.tsx:60-97 | each handler sets a fixed step; only the decline handler returns to `login` and only the final one reaches `authenticated` |
| App.Deliver | App.tsx:257-288 | an event changes the step only when the current screen holds its callback, and then to that handler's step; `authenticated` never changes |
| App.AuthenticatedAbsorbing | App.tsx:257-297 | no sequence of sign-in events leaves `authenticated` |
| App.RunRankBound | App.tsx:60-97 | n events advance the sign-in sequence by at most n steps |
| App.AuthenticationNeedsSevenEvents | App.tsx:60-97 | any event sequence that takes `login` to `authenticated` has at least seven events |
| App.FindProgram | App.tsx:100 | no result exactly when no program has the id; otherwise a program of the list with that id |
| App.AppState.constructor | App.tsx:23-26 | the step starts at `login`, with no program selected and the wallet action `view` |
| App.AppState.Dispatch | App.tsx:257-288 | an event moves the step only when the current screen holds that callback; the selected program and action are unchanged |
| App.AppState.HandleLogin | App.tsx:60-62 | the step becomes `digital_id_consent`; nothing else changes |
| App.AppState.HandleConsentConfirmed | App.tsx:64-67 | the step becomes `redirecting_to_digital_id`; nothing else changes |
| App.AppState.HandleRedirectComplete | App.tsx:69-72 | the step becomes `digital_id_send_consent`; nothing else changes |
| App.AppState.HandleSendConsentConfirmed | App.tsx:74-77 | the step becomes `biometric`; nothing else changes |
| App.AppState.HandleSendConsentCancelled | App.tsx:79-82 | the step returns to `login`; nothing else changes |
| App.AppState.HandleBiometricSuccess | App.tsx:84-87 | the step becomes `auth_success`; nothing else changes |
| App.AppState.HandleAuthSuccessDismiss | App.tsx:89-92 | the step becomes `return_to_app`; nothing else changes |
| App.AppState.HandleAppReturnComplete | App.tsx:94-97 | the step becomes `authenticated`; nothing else changes |
| App.AppState.HandleOpenProgram | App.tsx:99-105 | an unknown id changes neither the selected program nor the action; a known id selects that program and records the action (default `view`) |
| App.AppState.SelectCard | App.tsx:233 | a dashboard card, one of the catalogue's programs, selects its program and keeps the last wallet action |
| App.AppState.CloseProgram | App.tsx:332 | closing the overlay clears the selected program only |
| App.TotalBalanceIsRinggitSum | App.tsx:110-112 | the total balance is the sum of the balances of exactly the programs counted in ringgit (unit `RM` or none) |
| App.TotalBalanceAppend | App.tsx:110-112 | the total of a concatenation is the sum of the totals |
| App.TotalBalanceNonNegative | App.tsx:110-112 | with non-negative balances the total is non-negative |
| App.TotalBalance | App.tsx:110-112 | programs counted in litres or visits add nothing: with no ringgit program the total is 0 |
| App.CountsExact | App.tsx:114-124 | the active count is the number of eligible-or-approved programs; each count is zero exactly when no program meets its test |
| App.ActiveCount | App.tsx:114-116 | the number of active programs is at most the number of programs |
| App.PendingCount | App.tsx:118-120 | the number of pending programs is at most the number of programs |
| App.ActionNeededCount | App.tsx:122-124 | the number of programs needing action is at most the number of programs |
| App.FilteredPrograms | App.tsx:128-135 | every shown program is from the catalogue and matches both the search and the category chip |
| App.FilteredProgramsExact | App.tsx:128-135 | the shown list is an order-preserving sub-list holding each matching program as often as the catalogue does, and no other |
| App.UnfilteredShowsAll | App.tsx:128-135 | with an empty search and the `All` chip the whole catalogue is shown |
| App.ChipSelectsItsCategory | App.tsx:126-132 | each chip other than `All` keeps exactly the programs of its own category |
| App.CategoryNameLower | types.ts:33 | category names are already lower case |
| App.CategoryNameInjective | types.ts:33 | distinct categories have distinct names |
| GeminiService.EffectiveApiKey | services/geminiService.ts:7 | `API_KEY` when set and non-empty, else `GEMINI_API_KEY` when set and non-empty, else the empty string |
| GeminiService.ApiKeyMissingIff | services/geminiService.ts:10 | the key counts as missing exactly when it is the placeholder or all whitespace (the empty key included) |
| GeminiService.UnsetKeyIsMissing | services/geminiService.ts:7-10 | with neither variable set the key counts as missing |
| GeminiService.FirstMatch | services/geminiService.ts:167-173 | no result exactly when no row's keywords occur; otherwise the program of a row whose keyword occurs |
| GeminiService.ReplyPriority | services/geminiService.ts:167-173 | a reply naming str/tunai/cash links `str`; otherwise sara/asas/groceries/makanan links `sara`; otherwise budi/petrol/diesel/fuel links `budi95`; otherwise nothing |
| GeminiService.PromptProgram | services/geminiService.ts:181-185 | the fallback is `sara` iff the prompt names sara or groceries, else `budi95` iff it names petrol, budi or fuel, else `str` |
| GeminiService.DetectProgramAndAction | services/geminiService.ts:159-185 | the action is payment iff the reply names qr, code, pay, scan or bayar; a program found in the reply is kept; a payment reply naming none takes the prompt's fallback, so payment always has a program |
| GeminiService.CheckPaduDatabase | services/geminiService.ts:36-46 | the mock record is a verified success; its date is a `T`-free prefix of the timestamp that ends at the first `T` or at the end |
| GeminiService.PaduDateOfIso | services/geminiService.ts:43 | a timestamp `date`+`T`+`time` with a `T`-free date records exactly `date` |
| GeminiService.BuildFunctionResponses | services/geminiService.ts:133-148 | the loop builds exactly the answers to the PADU calls, in call order |
| GeminiService.PaduResponsesMatchCalls | services/geminiService.ts:133-153 | one answer per `checkPaduDatabase` call, carrying that call's id and name; no answers exactly when no call has that name |
| GeminiService.PaduResponses | services/geminiService.ts:133-153 | the answers built for the `checkPaduDatabase` calls among the model's calls, in call order; PaduResponsesMatchCalls and BuildFunctionResponses state them |
| GeminiService.GenerateSpeech | services/geminiService.ts:50-71 | empty text gives no audio; audio is returned only when the speech model produced non-empty data, and then that data |
| GeminiService.ClassifyError | services/geminiService.ts:208-265 | failures are classified first-match: missing key, then auth (API_KEY, 401, 403), then quota (429, quota, RESOURCE_EXHAUSTED), then network (fetch, network, CORS), then generic; each class iff its test holds and no earlier one does |
| GeminiService.GenericErrorMessage | services/geminiService.ts:258 | the inner error message if non-empty, else the message if non-empty, else a non-empty default |
| GeminiService.ErrorText | services/geminiService.ts:208-265 | the reply text picked by the failure's class: the fixed texts, the quota notice with its delay, or the generic prefix with the quota or retry hint; its properties are GenericQuotaComesFromInnerMessage and QuotaReplyQuotesDelay |
| GeminiService.ErrorResponse | services/geminiService.ts:209-265 | every failure reply has no program, action `view`, no audio and no grounding |
| GeminiService.GenericQuotaComesFromInnerMessage | services/geminiService.ts:258-260 | a generic reply mentions the quota only when the inner error message does |
| GeminiService.QuotaReplyQuotesDelay | services/geminiService.ts:233-237 | the quota reply starts with the fixed notice and ends with the retry delay when the error carries one |
| GeminiService.GenerateChatResponse | services/geminiService.ts:75-196 | a second send happens iff the first reply asks for PADU data, carrying exactly the answers; a throw at either send gives the error reply; otherwise the reply's text, grounding and audio are passed on, the action is payment iff the reply names a payment keyword, and the program is the reply's first match, or the prompt's program when a payment reply names none |
| SubsidyCard.Unit | components/Tabs/Home/SubsidyCard.tsx:16 | the unit is `RM` iff the quota unit is `RM` or none, else empty |
| SubsidyCard.Suffix | components/Tabs/Home/SubsidyCard.tsx:17 | ` L` for litres, ` visits` for visits, empty exactly for `RM` or none |
| SubsidyCard.UnitXorSuffix | components/Tabs/Home/SubsidyCard.tsx:16-17 | a balance shows exactly one of a unit prefix and a suffix |
| SubsidyCard.Percentage | components/Tabs/Home/SubsidyCard.tsx:22 | never above 100; 0 when nothing is allocated; 100·balance/allocation while the balance is within it and 100 beyond it; non-negative with a non-negative balance |
| SubsidyCard.ShowsProgress | components/Tabs/Home/SubsidyCard.tsx:88 | the progress bar is drawn only with an allocation; when it is hidden the percentage is 0 |
| SubsidyCard.StatusWord | components/Tabs/Home/SubsidyCard.tsx:12-25 | `Active` iff eligible or approved, else `Pending` |
| SubsidyCard.IsEligible | components/Tabs/Home/SubsidyCard.tsx:12 | a program is active when it is eligible or its application approved; StatusWord and ActionText are stated in its terms |
| SubsidyCard.AlertPart | components/Tabs/Home/SubsidyCard.tsx:25 | empty iff there is no alert message; otherwise `Alert: ` followed by the message |
| SubsidyCard.A11yLabel | components/Tabs/Home/SubsidyCard.tsx:25 | the label starts with the name, code and balance lead and ends with the status word and the alert part |
| SubsidyCard.ActionText | components/Tabs/Home/SubsidyCard.tsx:101-118 | `Refuel Now` iff eligible fuel, `Pay / Scan` iff eligible non-fuel, `Not Eligible` iff not eligible |
| SubsidyCard.AlertBarRed | components/Tabs/Home/SubsidyCard.tsx:35-36 | no bar iff there is no alert message; a red bar iff the alert type is urgent |
| NotificationCenter.SectionsExact | components/Tabs/Notifications/NotificationCenter.tsx:12-14 | each section holds exactly the items of its own type, as often as the input does, in input order |
| NotificationCenter.PriorityItems | components/Tabs/Notifications/NotificationCenter.tsx:12 | every item of the urgent section is a priority item of the feed |
| NotificationCenter.StatusItems | components/Tabs/Notifications/NotificationCenter.tsx:13 | every item of the applications section is a status item of the feed |
| NotificationCenter.NewsItems | components/Tabs/Notifications/NotificationCenter.tsx:14 | every item of the news section is a news item of the feed |
| NotificationCenter.SectionsPartition | components/Tabs/Notifications/NotificationCenter.tsx:12-14 | the three sections together are the input as a multiset, and their lengths sum to its length |
| NotificationCenter.SectionShownIff | components/Tabs/Notifications/NotificationCenter.tsx:21-59 | a section is shown iff some item has its type |
| ImagePath.CleanPath | utils/imagePath.ts:7 | exactly one leading `/` is removed when present; any other path is unchanged |
| ImagePath.Base | utils/imagePath.ts:12-15 | the base always ends with `/`; `/` for an empty base URL; one `/` appended only when missing |
| ImagePath.GetImagePath | utils/imagePath.ts:17 | the result starts with the base, ends with the cleaned path, and is exactly as long as both |
| ImagePath.OneSlashRemoved | utils/imagePath.ts:7-17 | one leading slash is dropped and a second one is kept |
| ImagePath.LeadingSlashIrrelevant | utils/imagePath.ts:7-17 | `getImagePath('/' + x)` equals `getImagePath(x)` when x does not start with `/` |
| ImagePath.LocalDevelopment | utils/imagePath.ts:12-17 | with no base URL the path is served from `/` |
| ViteConfig.RepoName | vite.config.ts:10-13 | empty unless `GITHUB_ACTIONS` is exactly `true`; a non-empty name comes from a set repository and contains no `/` |
| ViteConfig.Base | vite.config.ts:14 | the base is non-empty and starts and ends with `/`; it is `/` iff the repository name is empty |
| ViteConfig.BaseDefaultsToRoot | vite.config.ts:10-14 | the base is `/` unless `GITHUB_ACTIONS` is `true` and a repository is set |
| ViteConfig.OwnerRepo | vite.config.ts:11-14 | `owner/repo` gives `/repo/` |
| ViteConfig.ExtraSegmentsIgnored | vite.config.ts:11-14 | `a/b/c` gives `/b/` |
| ViteConfig.NoSlash | vite.config.ts:11-14 | a repository string without `/` gives `/` |
| ViteConfig.EmptySecondSegment | vite.config.ts:11-14 | `owner/rest` gives `/` iff the second segment is empty |
| ViteConfig.TrailingSlash | vite.config.ts:11-14 | `owner/` gives `/` |
| ViteConfig.DoubleSlash | vite.config.ts:11-14 | `owner//x` gives `/` |
| ViteConfig.Escape | vite.config.ts:24-26 | escaping for a JSON string literal never shortens the text |
| ViteConfig.Define | vite.config.ts:23-27 | the define map has exactly the three key names, each bound to the stringified `GEMINI_API_KEY` |
| ViteConfig.DefineAgrees | vite.config.ts:24-26 | all three keys get the same value |
| AuthSuccessModal.OkLabel | components/Auth/AuthSuccessModal.tsx:55 | the button reads `OK (n)` with the current count's digit, and longer labels only for two-digit counts |
| AuthSuccessModal.OkLabelInjective | components/Auth/AuthSuccessModal.tsx:55 | distinct counts give distinct labels |
| AuthSuccessModal.SuccessModal.constructor | components/Auth/AuthSuccessModal.tsx:10-15 | mounting shows count 3 with one timer pending and nothing dismissed |
| AuthSuccessModal.SuccessModal.TimerFires | components/Auth/AuthSuccessModal.tsx:12-19 | a tick lowers the count by one, starts the next timer while it is positive, and at zero calls `onDismiss` once; count plus ticks stays 3 |
| AuthSuccessModal.SuccessModal.EffectRerun | components/Auth/AuthSuccessModal.tsx:12-19 | a re-run with a new callback clears and restarts the pending timer, or at zero calls `onDismiss` again |
| AuthSuccessModal.SuccessModal.OkClick | components/Auth/AuthSuccessModal.tsx:52 | OK calls `onDismiss` at any count and leaves the countdown alone |
| AuthSuccessModal.SuccessModal.Unmount | components/Auth/AuthSuccessModal.tsx:15 | unmounting clears the pending timer |
| AuthSuccessModal.DismissesAfterThreeSeconds | components/Auth/AuthSuccessModal.tsx:10-19 | left alone the modal dismisses itself exactly once, after three ticks, and then has nothing pending |
| SplashScreen.Splash.constructor | components/Auth/DigitalIDRedirectScreen.tsx:8-17 | a screen mounts invisible with both timers pending and no completion |
| SplashScreen.Splash.Elapse | components/Auth/DigitalIDRedirectScreen.tsx:10-23 | while mounted the screen is visible exactly from 100ms and has called `onComplete` once exactly from its delay on, never more; unmounted, nothing more happens |
| SplashScreen.Splash.Unmount | components/Auth/MyMadaniLaunchScreen.tsx:20-23 | unmounting clears both timers and changes nothing else |
| SplashScreen.RedirectCompletesOnce | components/Auth/DigitalIDRedirectScreen.tsx:12-17 | the redirect screen left alone for 3000ms is visible and has completed exactly once |
| SplashScreen.LaunchUnmountedEarly | components/Auth/MyMadaniLaunchScreen.tsx:16-23 | a launch screen unmounted before 2500ms never calls `onComplete`, however long afterwards |
| ConsentScreen.FormatTime | components/Auth/DigitalIDConsentScreen.tsx:19-23 | `formatTime`: whole minutes and remaining seconds, unpadded, in words; StartDisplay and FormatTimeInjective state what it shows |
| ConsentScreen.StartDisplay | components/Auth/DigitalIDConsentScreen.tsx:10-23 | the screen opens on `2 MINUTES 57 SECONDS` |
| ConsentScreen.FormatTimeInjective | components/Auth/DigitalIDConsentScreen.tsx:19-23 | distinct second counts give distinct texts, so minutes and seconds are recovered from the text |
| ConsentScreen.Consent.constructor | components/Auth/DigitalIDConsentScreen.tsx:10-17 | the countdown starts at 177 with its interval live and no confirmation |
| ConsentScreen.Consent.Tick | components/Auth/DigitalIDConsentScreen.tsx:13-15 | a tick lowers the time by one, saturating at 0, and confirms nothing |
| ConsentScreen.Consent.Yes | components/Auth/DigitalIDConsentScreen.tsx:90-95 | only YES calls `onConfirm`, once per press |
| ConsentScreen.Consent.Unmount | components/Auth/DigitalIDConsentScreen.tsx:16 | unmounting clears the interval |
| ConsentScreen.CountDown | components/Auth/DigitalIDConsentScreen.tsx:10-17 | after n ticks the time is 177 − n, or 0 once n reaches 177, and nothing was confirmed |
| BiometricVerifier.ClipFor | components/Auth/BiometricVerifier.tsx:18-19 | the chosen clip is one of the two fixed paths, the first exactly when the random draw is below one half |
| BiometricVerifier.Title | components/Auth/BiometricVerifier.tsx:78-80 | `Authorize Payment` iff paying, else `Identity Verification` |
| BiometricVerifier.AriaLabel | components/Auth/BiometricVerifier.tsx:65 | `Payment Authorization` iff paying, else `Identity Verification`; the dialog's accessible name has its own wording, unlike the heading's `Authorize Payment`, so it is a separate function |
| BiometricVerifier.Verifier.constructor | components/Auth/BiometricVerifier.tsx:12-14 | the verifier starts on "Initializing Camera..." with no clip, no scan and nothing pending |
| BiometricVerifier.Verifier.SelectClip | components/Auth/BiometricVerifier.tsx:16-48 | the chosen clip is one of the two, one `canplay` listener is registered, and the status text, the scan and the timers are unchanged |
| BiometricVerifier.Verifier.VideoEffectRerun | components/Auth/BiometricVerifier.tsx:23-59 | a re-run registers another listener once a clip is chosen, and none before; the first listener is not removed |
| BiometricVerifier.Verifier.CanPlay | components/Auth/BiometricVerifier.tsx:31-48 | `canplay` fires every registered listener once, each starting an align timer, and shows the align prompt |
| BiometricVerifier.Verifier.AlignTimerFires | components/Auth/BiometricVerifier.tsx:37-40 | an align timer starts scanning with "Verifying Identity..." and schedules one completion, whether mounted or not |
| BiometricVerifier.Verifier.CompleteTimerFires | components/Auth/BiometricVerifier.tsx:41-43 | a completion timer calls `onVerifyComplete` once and touches nothing else |
| BiometricVerifier.Verifier.Unmount | components/Auth/BiometricVerifier.tsx:50-58 | unmounting clears no timer, so every scheduled completion still happens |
| BiometricVerifier.Verifier.CompletionsBounded | components/Auth/BiometricVerifier.tsx:31-48 | completions never outnumber listener registrations, nor align timers fired |
| BiometricVerifier.VerifiesOnce | components/Auth/BiometricVerifier.tsx:16-44 | clip, `canplay` and the two timers give exactly one completion while scanning, with nothing left pending |
| BiometricVerifier.CompletesAfterUnmount | components/Auth/BiometricVerifier.tsx:37-58 | a verifier unmounted after `canplay` still calls `onVerifyComplete` |
| BiometricVerifier.RerunCompletesTwice | components/Auth/BiometricVerifier.tsx:23-59 | an effect re-run before `canplay` makes one verification complete twice |
| WalletDetailView.OverlayOf | components/Tabs/Home/WalletDetailView.tsx:142-202 | fuel input iff the fuel step is `input`; otherwise biometric iff paying and not authorised; payment view iff paying and authorised; else the tabs |
| WalletDetailView.ToggledItem | components/Tabs/Home/WalletDetailView.tsx:101-103 | toggling the open item closes it; any other item replaces it |
| WalletDetailView.ToggleTwiceRestores | components/Tabs/Home/WalletDetailView.tsx:101-103 | toggling the same item twice restores a closed accordion or that item open |
| WalletDetailView.MapQuery | components/Tabs/Home/WalletDetailView.tsx:115-120 | fuel and medical map to their fixed queries; every other category to `Lotus near me` |
| WalletDetailView.ExpiryLabel | components/Tabs/Home/WalletDetailView.tsx:278 | the expiry text of the QR view; ExpiryLabelDigits and ExpiryLabelInjective state its shape |
| WalletDetailView.ExpiryLabelDigits | components/Tabs/Home/WalletDetailView.tsx:278 | the label is the minutes, a colon and exactly two second digits (tens, units) |
| WalletDetailView.ExpiryLabelInjective | components/Tabs/Home/WalletDetailView.tsx:278 | distinct remaining times give distinct labels |
| WalletDetailView.Wallet.constructor | components/Tabs/Home/WalletDetailView.tsx:20-40 | payment starts shown iff the initial action is payment, unauthorised, idle, with 120 seconds |
| WalletDetailView.Wallet.LeaveVerifier | components/Auth/BiometricVerifier.tsx:37-59 | the corrected verifier keeps the ids of its two timeouts and clears them in a cleanup its effect returns, so once off screen it has no pending completion; the verifier as written, which keeps no timeout id and returns no cleanup, changes nothing |
| WalletDetailView.Wallet.SyncInitialAction | components/Tabs/Home/WalletDetailView.tsx:45-51 | a change of the prop sets `showPayment` to whether it is payment; the only other change is the corrected verifier dropping its pending completions when that hides it |
| WalletDetailView.Wallet.PayClick | components/Tabs/Home/WalletDetailView.tsx:74-81 | the method is always recorded; fuel opens the pump input and leaves `showPayment`; other programs set `showPayment` |
| WalletDetailView.Wallet.EditPumpNo | components/Tabs/Home/WalletDetailView.tsx:168 | typing sets the pump number only |
| WalletDetailView.Wallet.CancelFuelInput | components/Tabs/Home/WalletDetailView.tsx:148 | the close button returns the fuel step to idle only |
| WalletDetailView.Wallet.FuelAuthorize | components/Tabs/Home/WalletDetailView.tsx:87-91 | with a pump number entered, the pump moves to processing and the biometric check opens |
| WalletDetailView.Wallet.VerifierStarts | components/Tabs/Home/WalletDetailView.tsx:188-199 | the verifier on screen schedules one completion |
| WalletDetailView.Wallet.VerificationCompletes | components/Tabs/Home/WalletDetailView.tsx:83-85 | a completion authorises, whether or not the verifier is still shown; with the corrected verifier it only comes while shown |
| WalletDetailView.Wallet.BiometricClose | components/Tabs/Home/WalletDetailView.tsx:193-196 | closing the verifier hides payment and idles the fuel step only; the corrected verifier also cancels its pending completion |
| WalletDetailView.Wallet.ClosePayment | components/Tabs/Home/WalletDetailView.tsx:64-71 | payment hidden, authorisation dropped, fuel step idle, 120 seconds restored, back on the tabs |
| WalletDetailView.Wallet.Tick | components/Tabs/Home/WalletDetailView.tsx:54-62 | while the QR view runs (paying, authorised, not fuel) a tick lowers the time by one, never below 0 |
| WalletDetailView.Wallet.ToggleInfoItem | components/Tabs/Home/WalletDetailView.tsx:101-103 | the expanded item becomes the toggled value; nothing else changes |
| WalletDetailView.Wallet.OpenDocSelector | components/Tabs/Home/WalletDetailView.tsx:719 | the selector opens and nothing else changes |
| WalletDetailView.Wallet.CloseDocSelector | components/Tabs/Home/WalletDetailView.tsx:770-775 | the selector closes and nothing else changes |
| WalletDetailView.Wallet.SelectDoc | components/Tabs/Home/WalletDetailView.tsx:110-113 | the chosen document is attached and the selector closes |
| WalletDetailView.Wallet.FormSubmit | components/Tabs/Home/WalletDetailView.tsx:93-95 | submit is possible only with a document attached and no submit in flight; it starts submitting with one timer |
| WalletDetailView.Wallet.SubmitTimerFires | components/Tabs/Home/WalletDetailView.tsx:95-98 | after 1500ms submitting ends in success |
| WalletDetailView.Wallet.BackToForm | components/Tabs/Home/WalletDetailView.tsx:763 | leaving the success message shows the form again |
| WalletDetailView.LatePaymentWithoutBiometric | components/Tabs/Home/WalletDetailView.tsx:188-199 | as written: a verification left running after closing the verifier authorises the wallet, and the next Pay reaches the QR view without one on screen |
| WalletDetailView.ClosedVerifierCannotAuthorize | components/Tabs/Home/WalletDetailView.tsx:188-199 | corrected: the same clicks leave nothing pending and the next Pay meets the verifier again |
| DigitalIdWallet.Cycle | components/Tabs/Personal/DigitalIDWallet.tsx:68-70 | the active card stays in 0..2 and advances by one, wrapping after the last |
| DigitalIdWallet.CycleThrice | components/Tabs/Personal/DigitalIDWallet.tsx:68-70 | three cycles return to the starting card |
| DigitalIdWallet.Position | components/Tabs/Personal/DigitalIDWallet.tsx:441 | the position is in 0..n−1, is 0 exactly for the active card, and the card at that position is the card itself |
| DigitalIdWallet.CardAt | components/Tabs/Personal/DigitalIDWallet.tsx:441 | the card shown at position p is p places after the active one, wrapping around |
| DigitalIdWallet.PositionIsPermutation | components/Tabs/Personal/DigitalIDWallet.tsx:441 | positions are a permutation of 0..n−1: injective, with `CardAt` its inverse |
| DigitalIdWallet.TierOf | components/Tabs/Personal/DigitalIDWallet.tsx:448-461 | position 0 is the front, 1 the middle, the rest the back |
| DigitalIdWallet.OneFrontCard | components/Tabs/Personal/DigitalIDWallet.tsx:441-451 | exactly the active card is drawn in front |
| DigitalIdWallet.UploadedDoc | components/Tabs/Personal/DigitalIDWallet.tsx:108-115 | the new document is a PDF iff the MIME type contains `pdf`, with the file's name, size, preview URL, id and date |
| DigitalIdWallet.NextProgress | components/Tabs/Personal/DigitalIDWallet.tsx:96-102 | a tick adds 10 below 100 and stays at 100 from there |
| DigitalIdWallet.ProgressOnGrid | components/Tabs/Personal/DigitalIDWallet.tsx:89-102 | from a multiple of 10 up to 100 the progress stays a multiple of 10, never exceeds 100, and never falls |
| DigitalIdWallet.Deleted | components/Tabs/Personal/DigitalIDWallet.tsx:322 | no kept document has the deleted id, and every kept one was in the list |
| DigitalIdWallet.DeletedExact | components/Tabs/Personal/DigitalIDWallet.tsx:322 | delete removes every document with that id and keeps the others, as often as before and in order |
| DigitalIdWallet.DeleteUnknownId | components/Tabs/Personal/DigitalIDWallet.tsx:322 | deleting an id no document has leaves the list unchanged |
| DigitalIdWallet.IncomeOf | components/Tabs/Personal/DigitalIDWallet.tsx:233 | an income that does not parse becomes 0; a parsed one is kept |
| DigitalIdWallet.IdWallet.constructor | components/Tabs/Personal/DigitalIDWallet.tsx:15-39 | the tab opens on the cards with the app's documents, card 0 in front, nothing pending |
| DigitalIdWallet.IdWallet.CycleCards | components/Tabs/Personal/DigitalIDWallet.tsx:68-70 | a tap on the stack cycles the active card and nothing else |
| DigitalIdWallet.IdWallet.Navigate | components/Tabs/Personal/DigitalIDWallet.tsx:701-714 | the menu rows open a sub-view and the back buttons return to the cards |
| DigitalIdWallet.IdWallet.ActionClick | components/Tabs/Personal/DigitalIDWallet.tsx:52-55 | an action records the renewal and shows the verifier |
| DigitalIdWallet.IdWallet.VerifierStarts | components/Tabs/Personal/DigitalIDWallet.tsx:124-125 | the verifier on screen schedules one completion |
| DigitalIdWallet.IdWallet.VerificationComplete | components/Tabs/Personal/DigitalIDWallet.tsx:57-59 | a completion hides the verifier and starts the 500ms success timer |
| DigitalIdWallet.IdWallet.SuccessTimerFires | components/Tabs/Personal/DigitalIDWallet.tsx:59-61 | after 500ms success shows and the 2000ms reset timer starts |
| DigitalIdWallet.IdWallet.ResetTimerFires | components/Tabs/Personal/DigitalIDWallet.tsx:61-64 | after 2000ms the success message and the renewal action are both cleared |
| DigitalIdWallet.IdWallet.StartEditing | components/Tabs/Personal/DigitalIDWallet.tsx:151 | Edit enters edit mode and nothing else |
| DigitalIdWallet.IdWallet.EditDetails | components/Tabs/Personal/DigitalIDWallet.tsx:187-233 | edits change email, phone, address, occupation and income only; name and IC number are never edited |
| DigitalIdWallet.IdWallet.CancelEditing | components/Tabs/Personal/DigitalIDWallet.tsx:245-246 | cancel leaves edit mode without restoring the edited fields |
| DigitalIdWallet.IdWallet.SaveProfile | components/Tabs/Personal/DigitalIDWallet.tsx:73-76 | save shows the spinner with one 1500ms timer |
| DigitalIdWallet.IdWallet.SaveTimerFires | components/Tabs/Personal/DigitalIDWallet.tsx:76-80 | after 1500ms the spinner goes and edit mode ends |
| DigitalIdWallet.IdWallet.OpenUploadSheet | components/Tabs/Personal/DigitalIDWallet.tsx:271 | the upload sheet opens and nothing else changes |
| DigitalIdWallet.IdWallet.CloseUploadSheet | components/Tabs/Personal/DigitalIDWallet.tsx:384-410 | the upload sheet closes and nothing else changes |
| DigitalIdWallet.IdWallet.FileChosen | components/Tabs/Personal/DigitalIDWallet.tsx:84-103 | no file changes nothing; a file closes the sheet, restarts progress at 0 and starts an upload that captures the current list |
| DigitalIdWallet.IdWallet.ProgressTick | components/Tabs/Personal/DigitalIDWallet.tsx:95-103 | an interval tick advances progress by the grid step and stops its own interval at 100 |
| DigitalIdWallet.IdWallet.UploadCompletes | components/Tabs/Personal/DigitalIDWallet.tsx:105-116 | after 2500ms the spinner goes and the list becomes the new document followed by the list captured at the start |
| DigitalIdWallet.IdWallet.DeleteDoc | components/Tabs/Personal/DigitalIDWallet.tsx:320-322 | the trash button replaces the list by the list without that id |
| DigitalIdWallet.IdWallet.OpenDoc | components/Tabs/Personal/DigitalIDWallet.tsx:299 | a document of the list opens in the viewer |
| DigitalIdWallet.IdWallet.CloseDoc | components/Tabs/Personal/DigitalIDWallet.tsx:346 | the viewer closes |
| DigitalIdWallet.UploadAlonePrepends | components/Tabs/Personal/DigitalIDWallet.tsx:84-116 | an upload with the list untouched prepends exactly one document, of the kind its MIME type names, and keeps all earlier ones in order |
| DigitalIdWallet.DeleteDuringUploadIsUndone | components/Tabs/Personal/DigitalIDWallet.tsx:105-116 | a document deleted while an upload runs comes back when the upload completes |
| AiChatbot.Decode | components/Tabs/Chat/AIChatbot.tsx:23-31 | the byte array is as long as the binary string, and byte i is the char code of character i |
| AiChatbot.ModelError | components/Tabs/Chat/AIChatbot.tsx:95-108 | a model-viewer error moves to the secondary image without the viewer, one step forward |
| AiChatbot.ImgError | components/Tabs/Chat/AIChatbot.tsx:82-92 | an image error moves one step forward: primary to secondary without the viewer, secondary to fallback, fallback to the icon |
| AiChatbot.ImgErrorNeverSeesPrimary | components/Tabs/Chat/AIChatbot.tsx:301-326 | the image (and so its error handler) is only rendered off the primary source, so the primary branch of `handleImgError` cannot run |
| AiChatbot.AvatarForwardOnly | components/Tabs/Chat/AIChatbot.tsx:82-108 | any sequence of load failures only moves the avatar forward, one step per failure at most, and keeps the viewer on only for the primary source |
| AiChatbot.History | components/Tabs/Chat/AIChatbot.tsx:175-178 | the history has the prior messages' roles and texts, same order and length |
| AiChatbot.TextToSend | components/Tabs/Chat/AIChatbot.tsx:164 | a non-empty override is sent, else the input |
| AiChatbot.BotMessage | components/Tabs/Chat/AIChatbot.tsx:184-193 | the model message carries the reply's text and program and shows the eligibility card iff a program is linked |
| AiChatbot.MockPrompt | components/Tabs/Chat/AIChatbot.tsx:226-228 | the STR-eligibility prompt with no messages, else "Open QR payment." |
| AiChatbot.Chatbot.constructor | components/Tabs/Chat/AIChatbot.tsx:53-62 | no messages, empty input, not listening or loading, avatar on the primary model |
| AiChatbot.Chatbot.SetInput | components/Tabs/Chat/AIChatbot.tsx:496-508 | typing sets the input only |
| AiChatbot.Chatbot.BeginSend | components/Tabs/Chat/AIChatbot.tsx:163-181 | blank text sends nothing; otherwise the user message is appended, the input cleared, loading set, and a request made with the history of the prior messages |
| AiChatbot.Chatbot.Send | components/Tabs/Chat/AIChatbot.tsx:509-523 | the send button sends the input, under the same rules |
| AiChatbot.Chatbot.SendSuggestion | components/Tabs/Chat/AIChatbot.tsx:373 | a suggestion chip, shown only before the chat starts, sends its own text, under the same rules |
| AiChatbot.Chatbot.ReplyArrives | components/Tabs/Chat/AIChatbot.tsx:181-207 | the reply appends exactly the model message and ends loading; a 1500ms open is scheduled iff it links a program with the payment action |
| AiChatbot.Chatbot.OpenTimerFires | components/Tabs/Chat/AIChatbot.tsx:204-206 | the scheduled open calls `onOpenProgram` with that program and action |
| AiChatbot.Chatbot.OpenWalletClick | components/Tabs/Chat/AIChatbot.tsx:462 | an eligibility card opens its program in view mode when it has one |
| AiChatbot.Chatbot.ToggleListening | components/Tabs/Chat/AIChatbot.tsx:210-231 | the microphone, shown only while the input is blank: while listening it only stops listening; otherwise it starts listening and schedules the mock voice prompt for the current messages |
| AiChatbot.Chatbot.VoiceTimerFires | components/Tabs/Chat/AIChatbot.tsx:223-231 | after 2000ms listening stops and the mock prompt is sent with the messages of the moment it was scheduled |
| AiChatbot.Chatbot.ModelViewerError | components/Tabs/Chat/AIChatbot.tsx:95-108 | the viewer's error event advances the avatar by one step |
| AiChatbot.Chatbot.ImageError | components/Tabs/Chat/AIChatbot.tsx:82-92 | the image's error event advances the avatar by one step |
| AiChatbot.VoicePromptNotBlank | components/Tabs/Chat/AIChatbot.tsx:226-230 | the mock voice prompts are never blank, so they are always sent |
| AiChatbot.StopDoesNotCancel | components/Tabs/Chat/AIChatbot.tsx:210-231 | stopping the microphone does not cancel the pending mock prompt, which is still sent |
| VoiceOverMock.Hint | components/Accessibility/VoiceOverMock.tsx:83-96 | the hint by priority: Button, Link, text field, Image, Heading, else none; each iff its test holds and no earlier one does |
| VoiceOverMock.Label | components/Accessibility/VoiceOverMock.tsx:80 | the aria-label when non-empty, else the alt text when non-empty, else the inner text |
| VoiceOverMock.Utterance | components/Accessibility/VoiceOverMock.tsx:99-105 | what is spoken for a selected element; UtteranceShape states it case by case |
| VoiceOverMock.UtteranceShape | components/Accessibility/VoiceOverMock.tsx:99-105 | a non-blank label is spoken with newlines as spaces, cut to 150 characters, then `. ` and the hint; a blank one speaks the hint, or "Element"; never empty |
| VoiceOverMock.VoiceOver.constructor | components/Accessibility/VoiceOverMock.tsx:5-17 | the simulation starts off, and mounting cancels speech once |
| VoiceOverMock.VoiceOver.HandleClick | components/Accessibility/VoiceOverMock.tsx:30-106 | a synthetic click passes once and clears the flag; a toggle click passes; a click with no meaningful element is swallowed; a double tap delivers exactly one click, resets the clock and clears the highlight; otherwise the element is selected, highlighted and spoken |
| VoiceOverMock.VoiceOver.UserClick | components/Accessibility/VoiceOverMock.tsx:30-130 | with the simulation off clicks reach the page and the toggle turns it on; with it on, clicks go through the handler and the toggle turns it off |
| VoiceOverMock.VoiceOver.Toggle | components/Accessibility/VoiceOverMock.tsx:12-17 | turning off clears the highlight and the active element and cancels speech; turning on changes nothing else |
| VoiceOverMock.VoiceOver.Scroll | components/Accessibility/VoiceOverMock.tsx:109-114 | scrolling redraws the highlight around the active element, if any |
| VoiceOverMock.DoubleTapActivatesOnce | components/Accessibility/VoiceOverMock.tsx:55-76 | two quick clicks on an element speak it once and deliver exactly one click to it; the activation resets the clock, so no later click is a double tap |

## Left out

- The Google GenAI SDK (`chat.sendMessage`, the speech model, grounding contents) is a foreign call. Its results are parameters: reply text, function calls, grounding, a thrown error, speech data. The system instruction and the history handed to the SDK are not modelled beyond `AiChatbot.History`.
- Console logging at start-up and in the error handler is not modelled.
- Floating-point and audio work is not modelled: `decodeAudioData`, `AudioContext` playback and the avatar tilt. The balance and percentage use Dafny reals, not IEEE doubles.
- Number formatting is not modelled: `toLocaleString`, `toFixed`, and the file size in MB. The size is a given label, and `A11yLabel` takes the formatted balance as a parameter.
- Browser services are left out: `atob`, `URL.createObjectURL`, `window.open`, `speechSynthesis` voices, video load and play, `getBoundingClientRect`, `closest()`, focus.
  - `Decode` takes the already-decoded binary string.
  - VoiceOver elements are abstract records, and the closest meaningful element is given.
  - The highlight is the id of the element it surrounds.
- Randomness and clocks are parameters: `Math.random` (the clip draw), `Date.now()` (ids and click times), `toLocaleDateString` and the ISO timestamp.
- React re-render semantics are modelled only where they change behaviour:
  - effect re-runs in the verifier and the success modal;
  - stale state captured by the upload and voice timers.
  - Interleavings of concurrent `handleSend` calls are modelled only as a list of outstanding requests answered in any order.
- AuthSuccessModal.SuccessModal.EffectRerun: the restarted timer's fresh 1000ms delay is not modelled, only that one timer is pending.
- `toLowerCase` is modelled on ASCII letters only. `trim` uses the JavaScript whitespace set within the Basic Multilingual Plane. Strings are sequences of Unicode scalar values, with no normalisation.
- JavaScript's `length`, `substring` and `charCodeAt` count UTF-16 code units, while the model counts scalar values. The two agree inside the Basic Multilingual Plane and differ outside it: a character such as an emoji is one element here and two units in JavaScript. This affects the 150-unit cut of `VoiceOverMock.Utterance`, the byte loop of `AiChatbot.Decode` (on the binary string `atob` yields every character is below 256, so there the two agree) and every length in the model.
- GeminiService.BuildFunctionResponses: a `checkPaduDatabase` call without `args` makes `call.args.icNumber` throw a `TypeError`, and the outer `catch` turns it into the generic error reply. The model gives every PADU call an answer, because the answer does not depend on the IC number.
- ViteConfig.Escape: escapes only `"` and `\`. The `\uXXXX` and `\n`-style escapes `JSON.stringify` gives control characters are not modelled, and the contract only bounds the length.
- The tab switcher, language menu, bottom navigation and all layout and styling are not part of this model. The login and send-consent screens only call back into the sequencer, whose transitions are modelled in `App`.
- The ID wallet's sign-out row has no handler in the code, so there is nothing to model.
- The wallet view's tab bar (`activeTab`), the station picker, the transaction list and the Save Draft button are display only or have no handler, and are not modelled.
- `types.ts` is reused as the `Types` module. It keeps only the fields the modelled logic reads.

## Findings

| source | as written | input that shows it | evidently intended | confidence | as-written member | corrected member |
|---|---|---|---|---|---|---|
| components/Tabs/Home/WalletDetailView.tsx:188-199 | the verifier never keeps or clears the ids of the two timeouts it schedules (components/Auth/BiometricVerifier.tsx:37-43), so closing it does not cancel a scheduled completion; when that completion arrives it sets `authorized`. Separately, its only cleanup, which removes the `canplay` listener, is created inside `startVideo` and discarded at line 58 | non-fuel program: Pay, let the clip play, close the verifier within 3.5s, wait, Pay again: the QR view opens with no face scan on screen | the verifier keeps both timeout ids and clears them in a cleanup its effect returns, so closing it cancels its pending completion and every authorisation comes from a verification shown on screen | not executed | WalletDetailView.LatePaymentWithoutBiometric | WalletDetailView.ClosedVerifierCannotAuthorize |

The corrected wallet (`verifierCleansUp`) keeps the invariant `Wallet.Secure` through each handler. Under it a completion is pending only while the verifier is shown, and every authorisation was verified there.

Other behaviours of the code, modelled as written:

- The ID wallet's upload completion prepends to the list captured when the file was chosen, so a document deleted during an upload comes back (`DigitalIdWallet.DeleteDuringUploadIsUndone`).
- Stopping the chatbot's microphone does not cancel the pending mock prompt (`AiChatbot.StopDoesNotCancel`).
- The first branch of `handleImgError` cannot run (`AiChatbot.ImgErrorNeverSeesPrimary`).
- A verifier effect re-run before `canplay` makes one verification complete twice (`BiometricVerifier.RerunCompletesTwice`).
