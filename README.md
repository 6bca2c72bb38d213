# Shopify store registration bot — verified model of its decision logic

The bot drives anti-detect browser profiles through four flows: registering
a Shopify store, signing in to Google, activating Shopify Payments, and
setting up two-step authentication. A spreadsheet is its work queue. Every
Selenium probe, HTTP reply of the local profile service, and pandas read or
write is an abstract input here. Examples: "is element X present", "what does
the URL read", "what code and message came back". What remains is modelled
and proved in Dafny:

- `Common` (`common.dfy`): option and reply values, the browser handle,
  Python's substring test, `lower()`, `find`, `split(c)[0]` and `strip()`, a
  match counter, a first-hit selector scan, the browser information built from
  a start reply, and the "stop accepted" rule shared by both profile clients.
- `Excel` (`excel_handler.dfy`): the work-item table. It has the
  required-column check, the first-pending-row query, and the masked
  status/notes update of the `Frame` object. That update changes the frame in
  place.
- `RegisterFlow` (`shopify_register.dfy`): the registration page classifier
  (fixed priority within a polling budget) and the polling and retry loops
  around it. It also has the challenge waiters and the three-strategy click
  fallback. The `ShopifyRegister` object holds the browser handles that the
  session gate may replace.
- `GoogleLogin` (`google_login.dfy`): the two cookie-evidence checks, the
  login check with and without quick mode, and the threshold classifier after
  the password. It also has the repeated check, the three-round handler, and
  the input guard and `finally` clause of `login`.
- `Payments` (`shopify_payments.dfy`): the store slug cut out of the admin
  URL, the payments URL built from it, the interview-URL gate, and the
  three-"Ready" gate.
- `TwoFactor` (`shopify_2fa.dfy`): the two five-attempt waiting loops, the
  code read-out, the verification submit, and the step sequence of the setup.
- `ProfileManager` (`adspower_manager.dfy`) and `ProfileController`
  (`adspower.py` → `adspower.dfy`): the two clients of the profile service.
  Each is a class with its state fields: the remembered browser information,
  or the attached driver and current profile id.

A polling loop with a wall-clock budget gets one observation per poll that
starts inside the budget. A loop with no cap at all (`while True`) gets a
finite sequence of observations. It reports `StillRunning` when it has not
returned by the end of them.

## Model

| member | source | states |
|---|---|---|
| Common.Lower | shopify_register/core/browser/google_login.py:115 | `lower()`: same length, no capital left, each capital shifted 32 code points to its small letter, every other character kept |
| Common.LowerIsIdempotent | shopify_register/core/browser/google_login.py:115 | lowering twice is lowering once |
| Common.IndexFrom | shopify_register/core/browser/shopify_payments.py:31 | the first occurrence at or after a position, None iff there is none from there on |
| Common.IndexOf | shopify_register/core/browser/shopify_payments.py:31 | the first occurrence of the separator: it occurs there, not earlier, and None exactly when it does not occur |
| Common.FirstField | shopify_register/core/browser/shopify_payments.py:31 | `split(c)[0]`: a prefix free of `c`, followed by `c` unless it is the whole string |
| Common.TrimLeft | shopify_register/core/browser/shopify_2fa.py:136 | the suffix left after dropping leading whitespace; it starts with a non-space |
| Common.TrimRight | shopify_register/core/browser/shopify_2fa.py:136 | the prefix left after dropping trailing whitespace; it ends with a non-space |
| Common.Strip | shopify_register/core/browser/shopify_2fa.py:136 | `strip()`: a stretch of the text that starts and ends with a non-space, with only whitespace before and after it |
| Common.StripIsIdempotent | shopify_register/core/browser/shopify_2fa.py:136 | stripping twice is stripping once |
| Common.Count | shopify_register/core/browser/google_login.py:133-139 | the number of matched indicators is at most the number of indicators, and zero iff none matched |
| Common.FirstHit | shopify_register/core/browser/shopify_register.py:509-519 | a scan of selectors in order says True exactly when one of them is found |
| Common.InfoFrom | shopify_register/core/browser/adspower.py:58-84 | the browser information exists exactly when both endpoints are in the reply; it carries them, the id, and "" for an absent debug port or puppeteer endpoint |
| Common.StopIgnoresCase | shopify_register/core/browser/adspower_manager.py:113-116 | whether a stop reply is accepted does not depend on the letter case of its message |
| Excel.ReadExcel | shopify_register/core/excel/excel_handler.py:19-32 | the table is accepted iff all 23 required columns are present; otherwise exactly the missing ones, never none, are reported |
| Excel.FirstPending | shopify_register/core/excel/excel_handler.py:48-58 | the index of the first row whose status is NaN or "failed"; None iff no row is pending |
| Excel.Reported | shopify_register/core/excel/excel_handler.py:82-84 | a reported row has the new status, the new notes only when they are non-empty, and every other cell unchanged |
| Excel.MaskUpdate | shopify_register/core/excel/excel_handler.py:76-84 | the masked update keeps the number of rows; EVERY row with the name gets the new status, and the notes when they are non-empty; other rows are kept |
| Excel.Frame.constructor | shopify_register/core/excel/excel_handler.py:27-34 | a frame holds the rows it was read with, over its columns |
| Excel.ExcelHandler.constructor | shopify_register/core/excel/excel_handler.py:8-37 | a handler exists only for a table that passed the column check |
| Excel.ExcelHandler.GetNextStore | shopify_register/core/excel/excel_handler.py:39-63 | the first pending row in table order, never one with status "success"; None iff nothing is pending |
| Excel.ExcelHandler.UpdateStoreStatus | shopify_register/core/excel/excel_handler.py:65-93 | no row with that name: False and nothing changes; otherwise every matching row is reported, and the result is True iff the save succeeds |
| Excel.ExcelHandler.UpdateStatus | shopify_register/core/excel/excel_handler.py:95-107 | only the row at the index is reported; a failed save raises |
| Excel.SuccessLeavesQueue | shopify_register/core/excel/excel_handler.py:48-51 | a row reported "success" is not pending |
| Excel.FailedRequeues | shopify_register/core/excel/excel_handler.py:48-51 | a row reported "failed" is pending again |
| Excel.SuccessAdvancesQueue | shopify_register/core/excel/excel_handler.py:39-84 | reporting the handed-out store as "success" moves the next pending row strictly later |
| Excel.ReportTouchesOnlyNamedRows | shopify_register/core/excel/excel_handler.py:76-84 | rows of other names, and columns other than status and notes, keep their values |
| RegisterFlow.FirstSignalled | shopify_register/core/browser/shopify_register.py:380-448 | the first label in a given order whose evidence is present, and None only when none has evidence |
| RegisterFlow.Classify | shopify_register/core/browser/shopify_register.py:380-448 | one pass reports a label only with its evidence, None iff no label has evidence, dashboard whenever its evidence is present, never "captcha" |
| RegisterFlow.ClassifyFollowsPriority | shopify_register/core/browser/shopify_register.py:380-448 | a pass reports the first label with evidence in the order dashboard, start_trial, email_signup, setup_page, skip_setup, skip_plan |
| RegisterFlow.FirstClassified | shopify_register/core/browser/shopify_register.py:376-453 | the verdict of a polling budget is that of the first pass that classifies; None iff no pass classifies |
| RegisterFlow.CheckNextStep | shopify_register/core/browser/shopify_register.py:376-453 | the polling loop returns the first classification, or None once the budget is spent |
| RegisterFlow.SubmitForm | shopify_register/core/browser/shopify_register.py:246-275 | at most five attempts; True iff some attempt's classification succeeds, at the first such attempt; False only after all five |
| RegisterFlow.FollowUpSucceedsOnlyAtDashboard | shopify_register/core/browser/shopify_register.py:282-300 | the follow-up loop returns True only after a dashboard classification |
| RegisterFlow.FollowUpHasNoCap | shopify_register/core/browser/shopify_register.py:282-343 | a page that keeps showing the trial button keeps the follow-up loop running for any number of iterations |
| RegisterFlow.FollowUp | shopify_register/core/browser/shopify_register.py:282-343 | the loop ends as its round-by-round specification says; on the dashboard the store is reported "success" with its URL, and otherwise the table is untouched |
| RegisterFlow.FindEmailSignup | shopify_register/core/browser/shopify_register.py:154-199 | the sign-up button is clicked iff some poll finds one of the selectors usable |
| RegisterFlow.HandleRecaptcha | shopify_register/core/browser/shopify_register.py:495-559 | True iff no challenge is present at first, or some poll inside the budget finds none |
| RegisterFlow.WaitForPageLoad | shopify_register/core/browser/shopify_register.py:657-679 | True iff some poll inside the budget reads a URL containing the pattern |
| RegisterFlow.WaitForCfCheck | shopify_register/core/browser/shopify_register.py:580-621 | True iff some poll inside the budget reads a URL containing "accounts.shopify.com/signup" |
| RegisterFlow.WaitForRecaptcha | shopify_register/core/browser/shopify_register.py:681-716 | True iff no challenge frame is present at first, or some poll finds it gone |
| RegisterFlow.SkipAllSteps | shopify_register/core/browser/shopify_register.py:561-578 | still running while every Skip click succeeds; else the first other poll decides, True for a timeout and False for a failure |
| RegisterFlow.RegisterShopify | shopify_register/core/browser/shopify_register.py:455-493 | False if the sign-up page cannot be opened; otherwise the round-by-round specification of the loop |
| RegisterFlow.RegisterNeedsAdminEvidence | shopify_register/core/browser/shopify_register.py:462-485 | registration succeeds only on a dashboard classification or a URL containing "myshopify.com/admin" |
| RegisterFlow.ClickElementWithRetry | shopify_register/core/browser/shopify_register.py:623-655 | strategies are tried in the order click, action chain, script; True iff one of them works, and the first that works wins; one that raises is skipped; all three are tried before False |
| RegisterFlow.ProcessStore | shopify_register/core/browser/shopify_register.py:118-358 | the outcome follows the phases; a navigation error reports the store "failed" with the error text; reaching the dashboard reports it "success" |
| RegisterFlow.ProcessStoreNeedsDashboard | shopify_register/core/browser/shopify_register.py:282-300 | processing a store succeeds only after a dashboard classification |
| RegisterFlow.ShopifyRegister.constructor | shopify_register/core/browser/shopify_register.py:20-34 | every holder of a browser handle starts on the given one; the profile id is never assigned |
| RegisterFlow.ShopifyRegister.EnsureBrowserActive | shopify_register/core/browser/shopify_register.py:47-86 | a live handle is kept untouched; otherwise True iff a profile id is set, the start reply is code 0 with both endpoints, and a driver is created; then driver, wait and components move to the new handle while quick wait and actions keep the old one |
| GoogleLogin.RequiredNames | shopify_register/core/browser/google_login.py:50-53 | the required names among a list of named cookies |
| GoogleLogin.CheckAdspowerCookies | shopify_register/core/browser/google_login.py:25-63 | True iff a profile id is set, the service answers code 0 with a cookie list, every cookie is named, and SID, HSID and SSID are all among them |
| GoogleLogin.CookieMap | shopify_register/core/browser/google_login.py:379-392 | the dictionary has only required names, exactly those present; it fails iff some cookie has no name or a required one has no value |
| GoogleLogin.CookieMapLastWins | shopify_register/core/browser/google_login.py:384-387 | a later cookie of the same name overwrites an earlier one |
| GoogleLogin.CookieFailurePersists | shopify_register/core/browser/google_login.py:379-392 | a malformed cookie anywhere makes the whole read fail |
| GoogleLogin.GetGoogleCookies | shopify_register/core/browser/google_login.py:379-392 | the loop builds that dictionary, or {} on any failure |
| GoogleLogin.VerifyGoogleCookies | shopify_register/core/browser/google_login.py:394-404 | True iff the dictionary's keys are exactly SID, HSID and SSID |
| GoogleLogin.CookieChannelsAgree | shopify_register/core/browser/google_login.py:25-63 | when the service lists the browser's own well-formed cookies, both cookie checks agree |
| GoogleLogin.CheckLoginSuccess | shopify_register/core/browser/google_login.py:65-105 | True iff there is cookie evidence (service cookies for a set profile id, or the browser's own cookies) or, outside quick mode, the avatar appears or the URL contains one of the three signed-in URLs |
| GoogleLogin.QuickCheckIgnoresPage | shopify_register/core/browser/google_login.py:80-100 | in quick mode the page and the URL do not matter |
| GoogleLogin.QuickImpliesFull | shopify_register/core/browser/google_login.py:65-105 | the full check accepts whatever the quick check accepts |
| GoogleLogin.NextStep | shopify_register/core/browser/google_login.py:107-235 | in this fixed order: verify_email iff the challenge URL, two of five indicators and a displayed recovery option; else verify_email_input iff an e-mail input indicator; else simplify_signin iff two of its indicators; else recovery_info iff two of its indicators; else success iff the quick check succeeds; None iff the URL read fails or nothing is recognised and the quick check fails |
| GoogleLogin.RecognisedPageOutranksEvidence | shopify_register/core/browser/google_login.py:107-235 | a recognised page is reported as that page whatever the login evidence; success is only considered when no page is recognised |
| GoogleLogin.CountMatches | shopify_register/core/browser/google_login.py:133-139 | the counting loop yields the number of present indicators |
| GoogleLogin.CheckNextStep | shopify_register/core/browser/google_login.py:107-235 | the checks run in order and give the classification above |
| GoogleLogin.CheckLoginSuccessMultiple | shopify_register/core/browser/google_login.py:252-285 | True iff two quick checks succeed or, failing that, two full checks do; `check_times` calls, or twice that; never True for fewer than two checks |
| GoogleLogin.AfterPasswordSpec | shopify_register/core/browser/google_login.py:426-527 | the three-round outcome is True only if some round gives a success verdict |
| GoogleLogin.HandleAfterPassword | shopify_register/core/browser/google_login.py:426-527 | the loop of at most three rounds follows that specification |
| GoogleLogin.UnrecognisedPagesFail | shopify_register/core/browser/google_login.py:426-527 | three rounds with no recognised page end in False |
| GoogleLogin.EmptyCellPassesGuard | shopify_register/core/browser/google_login.py:290-296 | NaN cells pass the input guard |
| GoogleLogin.Login | shopify_register/core/browser/google_login.py:287-377 | True iff the guard passes, the e-mail is entered, the password field appears and scrolls into view, one focus strategy works, clearing, typing and ENTER work, and the post-password handler succeeds; the browser is quit iff the avatar is absent at the end; when the avatar probe of the `finally` clause raises, the call raises instead of answering |
| GoogleLogin.LoginNeedsEvidence | shopify_register/core/browser/google_login.py:287-377 | a successful login saw a success page or an accepted recovery e-mail |
| Payments.SecondPiece | shopify_register/core/browser/shopify_payments.py:31 | `split(sep)[1]` exists iff the separator occurs; it is the text after the first separator up to the next separator or the end, and contains no separator |
| Payments.StoreSlug | shopify_register/core/browser/shopify_payments.py:31 | the slug never contains "/"; it exists iff "/store/" occurs |
| Payments.FirstFieldOfPrefix | shopify_register/core/browser/shopify_payments.py:31 | cutting at a later "/" does not change the first field |
| Payments.StoreSlugIsSegmentAfterMarker | shopify_register/core/browser/shopify_payments.py:31 | the slug is the segment right after the first "/store/" |
| Payments.AdminPrefixHasMarker | shopify_register/core/browser/shopify_payments.py:25-31 | past the admin-URL guard, the slug can always be cut out |
| Payments.NavigateToPayments | shopify_register/core/browser/shopify_payments.py:18-41 | navigates iff the URL contains "admin.shopify.com/store/" and loading works; the target is the payments URL of the slug |
| Payments.FirstFieldOfSlug | shopify_register/core/browser/shopify_payments.py:31-34 | the first field of slug + "/settings/payments" is the slug |
| Payments.MarkerPosition | shopify_register/core/browser/shopify_payments.py:34 | the first "/store/" of a payments URL follows the origin |
| Payments.SlugRoundTrip | shopify_register/core/browser/shopify_payments.py:31-34 | the slug read back from a store's payments URL is that store's slug |
| Payments.NavigationIsIdempotent | shopify_register/core/browser/shopify_payments.py:18-41 | from a store's payments page, navigation opens the same page |
| Payments.SubmitBusinessDetails | shopify_register/core/browser/shopify_payments.py:59-91 | True only on the "profile-assessment/interview" URL, after the click and heading, and with the business type selected |
| Payments.SubmitForVerification | shopify_register/core/browser/shopify_payments.py:385-428 | True only with exactly three "Ready" sections; after the click, True iff the confirmation appears |
| TwoFactor.AttemptsSpec | shopify_register/core/browser/shopify_2fa.py:76-108 | an attempt loop succeeds only if some attempt shows the heading |
| TwoFactor.HeadingIndex | shopify_register/core/browser/shopify_2fa.py:79-86 | the first attempt that shows the heading |
| TwoFactor.RaisingHandlerIsIgnored | shopify_register/core/browser/shopify_2fa.py:88-105 | when every captcha-handler call raises, the loop succeeds iff some attempt shows the heading |
| TwoFactor.AwaitHeading | shopify_register/core/browser/shopify_2fa.py:174-207 | the five-attempt loop follows that specification |
| TwoFactor.ReloginWithGoogle | shopify_register/core/browser/shopify_2fa.py:40-112 | True iff the Google button works and the loop finds the "Two-step authentication" heading |
| TwoFactor.Save2faCode | shopify_register/core/browser/shopify_2fa.py:114-142 | "" on any failure; otherwise the code text with only surrounding whitespace removed |
| TwoFactor.SavedCodeIsStripped | shopify_register/core/browser/shopify_2fa.py:136 | the saved code is already stripped |
| TwoFactor.Submit2faVerification | shopify_register/core/browser/shopify_2fa.py:144-211 | an absent or empty verification code gives False before any page action; otherwise True iff entering the code, clicking "Turn on", and the "Download recovery codes" loop all succeed |
| TwoFactor.SetupOutcome | shopify_register/core/browser/shopify_2fa.py:221-245 | (True, code) iff all five steps succeed; the code is returned iff the steps up to it succeed |
| TwoFactor.Setup2fa | shopify_register/core/browser/shopify_2fa.py:213-249 | with no argument passed to the re-login, always (False, ""); with one, the step sequence above |
| ProfileManager.GetBrowserList | shopify_register/core/browser/adspower_manager.py:16-38 | the listed profiles on code 0, [] on any failure or absent list |
| ProfileManager.FirstNamed | shopify_register/core/browser/adspower_manager.py:43-46 | the first profile with that name; None iff none has it |
| ProfileManager.FindBrowserId | shopify_register/core/browser/adspower_manager.py:40-46 | the linear search returns the id of the first profile of that name |
| ProfileManager.AfterStop | shopify_register/core/browser/adspower_manager.py:118-119 | the remembered browser is cleared exactly by an accepted stop of that browser; otherwise it is kept |
| ProfileManager.AdsPowerManager.constructor | shopify_register/core/browser/adspower_manager.py:11-14 | no browser is remembered at first |
| ProfileManager.AdsPowerManager.StopBrowser | shopify_register/core/browser/adspower_manager.py:106-125 | True iff code 0 or a "not open" message; the remembered browser is forgotten only if it was the stopped one; a failure changes nothing |
| ProfileManager.StartResult | shopify_register/core/browser/adspower_manager.py:63-104 | what `start_browser` answers: only for a listed name with a non-empty id, and then information about that id |
| ProfileManager.StartState | shopify_register/core/browser/adspower_manager.py:63-104 | the remembered browser after `start_browser`: the one `start_browser` answers whenever it answers one; otherwise nothing or the browser remembered before |
| ProfileManager.AdsPowerManager.StartBrowser | shopify_register/core/browser/adspower_manager.py:63-104 | unknown name: None, nothing changes; the remembered profile: returned unchanged; otherwise stop the remembered one, then start and remember on success; the result is `StartResult` and the new state `StartState` |
| ProfileManager.AdsPowerManager.ReconnectBrowser | shopify_register/core/browser/adspower_manager.py:127-157 | the remembered profile: the new driver is attached and nothing else changes; otherwise `start_browser` runs with the id as the NAME: the driver is attached iff that answers, and the remembered browser becomes `StartState`; when no name equals the id it gives None and changes nothing |
| ProfileManager.RestartNeedsNameEqualToId | shopify_register/core/browser/adspower_manager.py:133-137 | `start_browser` given a profile id answers only when some listed profile is named like that id |
| ProfileManager.IdIsNotAName | shopify_register/core/browser/adspower_manager.py:135 | when no profile is named like the id, the lookup finds nothing |
| ProfileController.GetBrowserList | shopify_register/core/browser/adspower.py:15-37 | None iff the call fails or answers a non-zero code; otherwise the list |
| ProfileController.ListsAgree | shopify_register/core/browser/adspower.py:29-33 | both clients list the same profiles; the controller's None is the manager's [] |
| ProfileController.StopBrowserById | shopify_register/core/browser/adspower.py:93-114 | True iff code 0 or a "not open" message; a failed call is False |
| ProfileController.CheckBrowserStatus | shopify_register/core/browser/adspower.py:131-153 | True iff code 0 and the status is "Active" |
| ProfileController.AdsPowerController.constructor | shopify_register/core/browser/adspower.py:9-13 | no driver and no profile id at first |
| ProfileController.AdsPowerController.StartBrowserById | shopify_register/core/browser/adspower.py:39-91 | on code 0 with both endpoints and a driver, it keeps the driver and the id and returns the information; otherwise None and nothing changes |
| ProfileController.AdsPowerController.CloseBrowser | shopify_register/core/browser/adspower.py:116-129 | nothing without a driver or when quitting raises; otherwise both fields are cleared, and a stop is requested iff a profile id was set |

## Left out

- Selenium, HTTP and pandas calls, XPath strings, clipboard use, logging,
  and the randomised human-like pauses and mouse paths: each probe is an
  abstract input and each reply an abstract value.
- Common.Lower, Common.Strip and TwoFactor.Save2faCode: ASCII only. Python's
  `lower()` also maps non-ASCII capitals, and `strip()` also removes
  non-ASCII whitespace such as U+00A0 and U+3000; neither is modelled.
- Wall-clock budgets: a budget is the finite sequence of observations the
  polls inside it see. The exact poll count that fits in one is not modelled.
- RegisterFlow.Classify: one URL value per pass. The source reads the URL
  twice in a pass (dashboard check and setup check); two different reads in
  one pass are not modelled.
- RegisterFlow.ProcessStore: the hCaptcha wait inside the form phase only
  delays the submit; it changes no outcome and is left out. The form fill
  itself is one flag, `formFilled`: both fields found, and clearing and
  typing into each worked (any of these raising gives False).
- RegisterFlow.RegisterShopify: the captcha branch of the loop is left out
  because no classification is ever "captcha" (`FirstClassified` ensures
  it). The skip branch takes the verdict of `skip_all_steps` as a flag.
- RegisterFlow.ShopifyRegister.constructor: takes a driver handle that is
  always present. The source raises ValueError when no driver is given
  (shopify_register.py:25-26); that error path is not modelled, since a
  Dafny constructor cannot fail.
- `check_browser_alive` (shopify_register.py and google_login.py) is the
  `alive` input; it is a single probe.
- ShopifyRegister.start_register, fill_signup_form, check_signup_page_elements
  and the hCaptcha and plugin checks: they are not part of this model.
- GoogleLogin.Login: opening the sign-in page and pasting the e-mail
  (`paste_text_and_enter`) are one flag. Scrolling to the password field is
  another flag. Clearing it, typing the password and pressing ENTER are a
  third flag, because any of them raising gives False. The field must also
  equal the page's active element for a focus strategy to count; that
  comparison is part of each strategy's flag.
- GoogleLogin.HandleAfterPassword: entering the recovery e-mail is one flag
  per round, `recoveryEntered`: the field appeared, and scrolling to it,
  clearing it, typing and pressing ENTER all worked (google_login.py:450-470).
- `save_session` (google_login.py:415) is never called by `login`; it reads
  and returns the browser's cookies and is not part of this model.
- Payments: the form-filling steps (`activate_shopify_payments`,
  `select_business_type`, `click_next_step`, `fill_business_details`,
  `fill_business_type_and_description`, `fill_account_representative`) are
  straight-line UI driving. `select_business_type` is one input flag of
  SubmitBusinessDetails.
- TwoFactor: `enable_2fa`, `complete_2fa_setup` and `verify_2fa_status`
  wait for one element and click it; each is a flag. The one-time code
  helper (twofa_live.py) is not part of this model; its answer is the
  `codeLookup` input.
- ProfileManager.AdsPowerManager.create_driver and the driver creation in
  `reconnect_browser`, `start_browser_by_id` and `ensure_browser_active`:
  the created driver is an input (None when creation raised).
- Excel.ExcelHandler.UpdateStatus: requires an index inside the frame. With
  a label that is not in the frame, pandas `.at` enlarges the frame; that is
  not modelled.
- Excel.ExcelHandler.GetNextStore: returns the row as a map. pandas also
  turns the row into a dict with NaN values; that conversion is the identity
  here.
- `get_all_data` re-reads the workbook file and is I/O only.

## Behaviour of the code as written

The model reproduces these properties of the source rather than correcting
them. Each one is stated by the member named:

- `ShopifyRegister.adspower_id` is never assigned (shopify_register.py:20-34),
  so reading it raises, and the handler turns that into False.
  `EnsureBrowserActive` ensures that an unassigned id and a dead browser
  always give False.
- After a reconnection, only `driver`, `wait` and the components move to the
  new handle; `quick_wait` and `actions` keep the old one
  (shopify_register.py:31, 33, 69-71). `EnsureBrowserActive` states this.
- The "captcha" branch of `register_shopify` (shopify_register.py:471-474)
  is unreachable: `FirstClassified` ensures no classification is "captcha".
- The follow-up loop of `process_store` has no cap: `FollowUpHasNoCap`.
- `click_element_with_retry` ignores its `max_retries` parameter; it always
  tries exactly the three strategies (`ClickElementWithRetry`).
- `setup_2fa` calls `relogin_with_google()` without the required e-mail
  (shopify_2fa.py:229). The resulting TypeError makes it answer
  (False, "") on every path (`Setup2fa`).
- `Shopify2FA` has no `handle_recaptcha`: each captcha attempt raises and is
  swallowed (`RaisingHandlerIsIgnored`). The helper class has no
  `get_verification_code` either, so `submit_2fa_verification` returns
  False before touching the page (`Submit2faVerification` with an absent
  code).
- `reconnect_browser` passes a profile id where `start_browser` expects a
  name (adspower_manager.py:135): `ReconnectBrowser` and `IdIsNotAName`.
- The avatar probe in the `finally` clause of `login` (google_login.py:373)
  is outside any `try`: when it raises, that exception replaces the verdict,
  even a True one (`Login`).
- pandas NaN cells are truthy, so the input guard of `login` accepts empty
  spreadsheet cells (`EmptyCellPassesGuard`).
- `update_store_status` changes the frame before saving it. A failed save
  returns False with the new values already in the frame
  (`UpdateStoreStatus`).
