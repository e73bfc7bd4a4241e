# Video front-end: verified model of the dashboard and the authentication forms

This project models the client-side behaviour of a web front-end for a video-processing service.
Users sign up, confirm their account with an emailed code, recover a forgotten password, select
video files, preview them in an editor, submit them for processing, and follow their videos in a
paginated table. The model covers these parts:

- **Video table** (`VideoTable`). Rows have a four-valued status. The status tabs filter the rows
  ("all", "processing" = Processing or Pending, "done", "error"). Pagination computes
  `ceil(n / pageSize)` pages and slices out the current one. The footer buttons and the
  `handlePageChange` guard are modelled, as are the status badge and the "Baixar ZIP" link. A
  `TableView` class holds the component state (`data`, `currentPage`, `pageSize`, `statusFilter`,
  `isRefreshing`) and its handlers.
- **Dashboard** (`Dashboard`). It shows the editor while a selection exists. When a submission
  completes, it puts one "Processing" row per file, with id `new-<millis>-<i>`, on top of the list.
- **Upload card** (`VideoUpload`). Picked and dropped files become the selection. A drop keeps only
  files whose MIME type starts with `video/`. The preview shows three names and a "+N mais" tag.
  The continue action hands the selection over.
- **Editor** (`VideoEditor`). It has a queue of files with one of them in the player, and the
  `m:ss` time display with its read-back. Play/pause is modelled, and so is the submission of the
  whole queue, with the callbacks it fires.
- **Authentication forms**:
  - `ForgotPassword`, `Signup`, `ConfirmSignup` and `ResetPassword` each keep their state in a class.
    The validation schemas of the forgotten-password form (request and reset), the sign-up form and the
    reset-password page are lists of issues. The confirmation page has no schema: it checks only the
    length of the code, through its button.
  - Every async handler is split into `Begin…` (what runs before the `await`) and `Settle…` (what
    runs after the identity-provider call settled, including `finally`).
  - `AuthFlow` holds what the forms share: the caught-error text, the resend countdown, and the
    button rules.

`Wrappers`, `Seqs` and `Decimal` are support modules: `Option`, an order-preserving filter with its
multiset characterisation, JavaScript's `slice`, and the decimal printing of natural numbers with
its inverse. `Browser` models the `File` object (name, MIME type, last-modified time).

## Model

| member | source | states |
|---|---|---|
| VideoTable.FilterVideos | src/components/video-table.tsx:68-76 | the filtered list holds exactly the rows the tab accepts, each as many times as in `data` |
| VideoTable.UnfilteredTab | src/components/video-table.tsx:69-74 | "all", and any value that is not one of the other three tabs, leaves the list unchanged |
| VideoTable.FilterVideosAppend | src/components/video-table.tsx:68-76 | filtering a list in two parts gives the filtered first part followed by the filtered second part, so the table order is kept |
| VideoTable.FilterVideosKeepsOrder | src/components/video-table.tsx:68-76 | two kept rows appear in the filtered list in their original order |
| VideoTable.StatusTabsPartition | src/components/video-table.tsx:71-73 | the "processing", "done" and "error" tabs split the rows: their sizes add up to the whole list |
| VideoTable.TotalPages | src/components/video-table.tsx:78 | the page count is the least number of pages of `pageSize` rows that holds every row, and 0 exactly for no rows |
| VideoTable.PageOf | src/components/video-table.tsx:79-82 | a page has exactly `min(pageSize, n - (page-1)*pageSize)` rows (none past the end), namely the rows from index `(page-1)*pageSize` on |
| VideoTable.PageInRange | src/components/video-table.tsx:78-82 | a page is non-empty exactly when it is within 1..totalPages, and every page before the last is full |
| VideoTable.PageIsWindow | src/components/video-table.tsx:79-82 | every page is the slice of the filtered list from `(page-1)*pageSize` to `page*pageSize`, both clamped to its length |
| VideoTable.PagesReassemble | src/components/video-table.tsx:78-82 | concatenating pages 1..totalPages gives back the whole filtered list, so pagination loses and repeats nothing |
| VideoTable.PageAfterChange | src/components/video-table.tsx:84-88 | the resulting page is the requested one when it is in 1..totalPages; otherwise the page does not change |
| VideoTable.PageCountLabel | src/components/video-table.tsx:217 | the footer's page count is 1 when there are no pages and the real count otherwise |
| VideoTable.FooterButtonsMove | src/components/video-table.tsx:219-237 | on a page within range, each footer button is enabled exactly when clicking it moves to the neighbouring page |
| VideoTable.StrandedPage | src/components/video-table.tsx:223-233 | on a page two or more past the last, both buttons are enabled and neither click moves |
| VideoTable.StatusBadge | src/components/video-table.tsx:90-113 | "Processando" exactly for Pending/Processing, "Concluído" exactly for Done, "Erro" exactly for Error, and the destructive variant exactly for Error |
| VideoTable.DownloadLink | src/components/video-table.tsx:169-177 | a download link exists exactly for a Done row with a non-empty URL, points at that URL, and sits beside the "Concluído" badge |
| VideoTable.TableView.constructor | src/components/video-table.tsx:49-55 | starts on page 1, 10 rows per page, tab "all", not refreshing, showing the given rows |
| VideoTable.TableView.ReceiveData | src/components/video-table.tsx:57-59 | a new `data` prop replaces the shown list |
| VideoTable.TableView.BeginRefresh | src/components/video-table.tsx:61-63 | the refresh button is disabled while the refresh runs |
| VideoTable.TableView.SettleRefresh | src/components/video-table.tsx:63-66 | after the delay the list is reloaded from the prop and the button is enabled again |
| VideoTable.TableView.HandlePageChange | src/components/video-table.tsx:84-88 | the page moves only to a page in 1..totalPages, and such a page is non-empty |
| VideoTable.TableView.HandleStatusFilterChange | src/components/video-table.tsx:132-135 | selecting a tab sets the filter and goes back to page 1 |
| VideoTable.TableView.HandlePageSizeChange | src/components/video-table.tsx:196-211 | choosing one of 5/10/20/50 sets the page size and goes back to page 1 |
| Dashboard.NewVideoEntries | src/app/dashboard/dashboard-content.tsx:21-27 | one row per submitted file, in file order, with the file's name, status Processing, no download URL and its ISO timestamp |
| Dashboard.NewVideoIdsDistinct | src/app/dashboard/dashboard-content.tsx:23 | ids built for different positions differ whatever the clock read |
| Dashboard.NewEntriesHaveDistinctIds | src/app/dashboard/dashboard-content.tsx:22-27 | the rows of one submission have pairwise distinct ids |
| Dashboard.DashboardContent.constructor | src/app/dashboard/dashboard-content.tsx:9-11 | no selection, the seed list, and the upload view is shown |
| Dashboard.DashboardContent.HandleVideoSelect | src/app/dashboard/dashboard-content.tsx:13-15 | the selection becomes the given files; the editor shows exactly when there are some |
| Dashboard.DashboardContent.HandleBack | src/app/dashboard/dashboard-content.tsx:17-19 | the selection is cleared and the upload view returns |
| Dashboard.DashboardContent.HandleProcessComplete | src/app/dashboard/dashboard-content.tsx:21-31 | the new rows come first and the previous list follows unchanged; the selection is cleared |
| VideoUpload.DroppedVideos | src/components/video-upload.tsx:48 | the kept files are exactly the dropped files whose MIME type starts with "video/", with their multiplicities |
| VideoUpload.DroppedVideosAppend | src/components/video-upload.tsx:48 | the kept files of a drop in two parts are those of the first part followed by those of the second, so drop order is kept |
| VideoUpload.DroppedVideosSingle | src/components/video-upload.tsx:48 | a single dropped file is kept exactly when its MIME type starts with "video/" |
| VideoUpload.DroppedVideosKeepsOrder | src/components/video-upload.tsx:48 | two kept files are listed in the order they were dropped |
| VideoUpload.NoVideoDropped | src/components/video-upload.tsx:48-53 | a drop without any video keeps nothing |
| VideoUpload.OnlyVideosDropped | src/components/video-upload.tsx:48-50 | a drop of videos only is kept as dropped |
| VideoUpload.PreviewNames | src/components/video-upload.tsx:136-140 | the preview lists the names of the first min(3, n) selected files |
| VideoUpload.OverflowTag | src/components/video-upload.tsx:141-145 | the "+N mais" tag appears exactly when more than three files are selected, with N the number not listed |
| VideoUpload.PreviewAccountsForAll | src/components/video-upload.tsx:134-145 | the listed names plus the number read back from the tag account for every selected file |
| VideoUpload.UploadCard.ContinueDisabled | src/components/video-upload.tsx:154 | the continue button is enabled exactly when the card is idle and the preview lists at least one file |
| VideoUpload.UploadCard.constructor | src/components/video-upload.tsx:22-25 | idle, not dragging, nothing selected |
| VideoUpload.UploadCard.HandleFileChange | src/components/video-upload.tsx:28-32 | a non-empty pick replaces the selection; an empty or absent pick leaves it |
| VideoUpload.UploadCard.HandleDragOver | src/components/video-upload.tsx:34-37 | dragging starts |
| VideoUpload.UploadCard.HandleDragLeave | src/components/video-upload.tsx:39-42 | dragging ends |
| VideoUpload.UploadCard.HandleDrop | src/components/video-upload.tsx:44-55 | dragging ends; the dropped videos become the selection; a non-empty drop without videos keeps the selection and is rejected |
| VideoUpload.UploadCard.HandleContinue | src/components/video-upload.tsx:61-75 | with a selection, it is delivered to the callback (or "prepared" without one) and the card is idle again; without one, an error and no change; a click on the enabled button always delivers or prepares |
| VideoEditor.PadStart | src/components/video-editor.tsx:82 | the result has at least the requested width, ends with the input and is filled on the left |
| VideoEditor.ClockText | src/components/video-editor.tsx:82 | the text starts with the minutes in decimal, then `:`, and is at least `m:ss` long |
| VideoEditor.FormatTime | src/components/video-editor.tsx:79-83 | the display is at least `m:ss` long; what it shows is stated by `FormatTimeFields` and `FormatTimeRoundTrip` |
| VideoEditor.FormatTimeFields | src/components/video-editor.tsx:79-83 | the display is the whole seconds of the position split into minutes and seconds below 60 |
| VideoEditor.FormatTimeRoundTrip | src/components/video-editor.tsx:79-83 | the display always ends in a colon and two digits, and reading it back gives the whole seconds of the position |
| VideoEditor.WholeSecondsRoundTrip | src/components/video-editor.tsx:80-82 | `m:ss` written from a whole number of seconds reads back as that number |
| VideoEditor.ParseClockOfFields | src/components/video-editor.tsx:82 | `m:ss` written from minutes and seconds below 60 reads back as `m*60 + ss` |
| VideoEditor.Editor.VideoFile | src/components/video-editor.tsx:32 | there is a current file exactly when the index is within the queue, and it is the queue entry at that index |
| VideoEditor.Editor.constructor | src/components/video-editor.tsx:30-40 | first file, paused, at position 0, not processing |
| VideoEditor.Editor.SelectEntry | src/components/video-editor.tsx:42-54 | clicking another queue entry makes it current, pauses, and clears the position and the duration; clicking the current one changes nothing else |
| VideoEditor.Editor.TogglePlay | src/components/video-editor.tsx:68-77 | play/pause flips while the player exists, and does nothing otherwise |
| VideoEditor.Editor.BeginGenerateZip | src/components/video-editor.tsx:85-86 | the submission marks the editor as processing |
| VideoEditor.Editor.SettleGenerateZip | src/components/video-editor.tsx:87-106 | after a successful upload the whole queue goes to `onProcessComplete` (when given) and then `onBack` is called; after a failure neither is called; processing ends either way |
| AuthFlow.ErrorText | src/components/forgot-password-form.tsx:81-82 | the error text is the thrown message when it is non-empty, the fallback for a non-`Error` value, the alternative for an empty message, and so never empty |
| AuthFlow.BareMessageCanBeBlank | src/components/signup-form.tsx:89-90 | a handler that stores the caught message without an alternative shows no error for an `Error` with an empty message |
| AuthFlow.MinLength | src/components/signup-form.tsx:29 | a minimum-length rule reports nothing exactly when the value is long enough, and reports only on its own field |
| AuthFlow.VerifyNeedsFullCode | src/components/signup-form.tsx:161-180 | with the six-character code input, "Verificar" is enabled exactly for a complete code when idle |
| AuthFlow.Tick | src/components/signup-form.tsx:59-64 | each second the countdown drops by one while positive and stays at 0 |
| AuthFlow.ResendCooldownBlocks | src/components/signup-form.tsx:154 | after a code is sent, "Reenviar Código" stays disabled for exactly 60 seconds, or while a request runs |
| AuthFlow.TicksValue | src/components/forgot-password-form.tsx:57-62 | after k seconds the countdown has dropped by k, stopping at 0 |
| AuthFlow.CooldownLength | src/components/forgot-password-form.tsx:57-62 | a countdown started at 60 is positive for exactly the first 60 seconds |
| ForgotPassword.RequestSchemaRule | src/components/forgot-password-form.tsx:35-37 | the request form is accepted exactly for a valid email, and its only issue is on the email field |
| ForgotPassword.ResetSchemaRule | src/components/forgot-password-form.tsx:39-46 | the new-password form is accepted exactly for a code of 6+ characters, a password of 8+ and a matching confirmation, and a mismatch is reported on the confirmation field only |
| ForgotPassword.ForgotPasswordForm.constructor | src/components/forgot-password-form.tsx:50-55 | step "request", no email, idle, no message or error, countdown 0 |
| ForgotPassword.ForgotPasswordForm.ResendBlockedAfterSend | src/components/forgot-password-form.tsx:235 | k seconds after a code was sent, "Reenviar Código" is enabled again exactly when k reaches 60; a running request does not disable it on this form |
| ForgotPassword.ForgotPasswordForm.Tick | src/components/forgot-password-form.tsx:57-62 | one firing of the countdown effect |
| ForgotPassword.ForgotPasswordForm.BeginRequestSubmit | src/components/forgot-password-form.tsx:69-72 | only a valid email reaches the handler; busy, with error and message cleared, so the submit button is disabled |
| ForgotPassword.ForgotPasswordForm.SettleRequestSubmit | src/components/forgot-password-form.tsx:73-85 | success remembers the (valid) email, moves to "confirm", reports the code as sent and starts the 60 s countdown, which disables resending; failure only sets the error text; idle, with the submit button enabled, either way |
| ForgotPassword.ForgotPasswordForm.BeginResetSubmit | src/components/forgot-password-form.tsx:93-96 | only valid values reach the handler; busy, with error and message cleared, so the submit button is disabled |
| ForgotPassword.ForgotPasswordForm.SettleResetSubmit | src/components/forgot-password-form.tsx:97-111 | success shows the confirmation and schedules the redirect; failure sets the error text; idle, with the submit button enabled, either way |
| ForgotPassword.ForgotPasswordForm.BeginResend | src/components/forgot-password-form.tsx:114-117 | without a remembered email nothing happens; otherwise error and message are cleared |
| ForgotPassword.ForgotPasswordForm.SettleResend | src/components/forgot-password-form.tsx:118-126 | success reports the resend and restarts the countdown, which disables resending; failure sets the error text |
| Signup.SignupSchemaRule | src/components/signup-form.tsx:28-32 | sign-up data is accepted exactly for a name of 3+ characters, a valid email and a password of 8+ |
| Signup.CreateDisabled | src/components/signup-form.tsx:235 | "Criar Conta" is enabled exactly for valid data while no submission runs |
| Signup.SignupForm.constructor | src/components/signup-form.tsx:41-47 | step "SIGNUP", empty email and code, idle, no message or error, countdown 0 |
| Signup.SignupForm.VerifyEnabledOnFullCode | src/components/signup-form.tsx:161-180 | with the six-character code input, "Verificar" is enabled exactly for a complete code while idle |
| Signup.SignupForm.ResendBlockedAfterSend | src/components/signup-form.tsx:154 | k seconds after a code was sent, "Reenviar Código" is enabled exactly when idle and k has reached 60 |
| Signup.SignupForm.Tick | src/components/signup-form.tsx:59-64 | one firing of the countdown effect |
| Signup.SignupForm.SetCode | src/components/signup-form.tsx:161 | the code input holds at most six characters |
| Signup.SignupForm.BeginSignUp | src/components/signup-form.tsx:66-67 | only valid data reaches the handler; the error is cleared |
| Signup.SignupForm.SettleSignUp | src/components/signup-form.tsx:68-91 | an incomplete sign-up moves to "CONFIRM" with the email and a 60 s countdown; a complete one navigates to "/"; a failure stores the caught message with no alternative |
| Signup.SignupForm.BeginConfirmVerify | src/components/signup-form.tsx:94-98 | busy, with error and message cleared, so "Verificar" and "Reenviar Código" are disabled |
| Signup.SignupForm.SettleConfirmVerify | src/components/signup-form.tsx:100-115 | only a completed confirmation navigates to "/"; a failure stores the caught message; idle either way, so "Verificar" is disabled exactly for an incomplete code |
| Signup.SignupForm.BeginResend | src/components/signup-form.tsx:118-121 | without an email nothing happens; otherwise error and message are cleared |
| Signup.SignupForm.SettleResend | src/components/signup-form.tsx:122-130 | success reports the destination (or "undefined") and restarts the countdown, which disables resending; failure stores the caught message |
| ConfirmSignup.ConfirmSignUpForm.constructor | src/components/confirm-signup-form.tsx:31-36 | the email is the address-bar parameter or "", and the countdown starts at 60 |
| ConfirmSignup.ConfirmSignUpForm.VerifyEnabledOnFullCode | src/components/confirm-signup-form.tsx:125-146 | with the six-character code input, "Verificar" is enabled exactly for a complete code while idle |
| ConfirmSignup.ConfirmSignUpForm.ResendBlockedAfterSend | src/components/confirm-signup-form.tsx:118 | k seconds after a code was sent, "Reenviar Código" is enabled exactly when idle and k has reached 60 |
| ConfirmSignup.ConfirmSignUpForm.Tick | src/components/confirm-signup-form.tsx:38-43 | one firing of the countdown effect |
| ConfirmSignup.ConfirmSignUpForm.SetCode | src/components/confirm-signup-form.tsx:125 | the code input holds at most six characters |
| ConfirmSignup.ConfirmSignUpForm.BeginVerify | src/components/confirm-signup-form.tsx:45-49 | only reachable when the form is shown; busy, with error and message cleared, so "Verificar" and "Reenviar Código" are disabled |
| ConfirmSignup.ConfirmSignUpForm.SettleVerify | src/components/confirm-signup-form.tsx:51-67 | only a completed confirmation navigates to "/"; a failure sets the never-empty error text; idle either way, so "Verificar" is disabled exactly for an incomplete code |
| ConfirmSignup.ConfirmSignUpForm.BeginResend | src/components/confirm-signup-form.tsx:70-73 | without an email nothing happens; otherwise error and message are cleared |
| ConfirmSignup.ConfirmSignUpForm.SettleResend | src/components/confirm-signup-form.tsx:74-82 | success reports the destination and restarts the countdown, which disables resending; failure sets the never-empty error text |
| ResetPassword.ResetPasswordSchemaRule | src/components/reset-password-form.tsx:27-30 | the values are accepted exactly for a code of 6+ characters and a password of 8+ |
| ResetPassword.SubmitEnabled | src/components/reset-password-form.tsx:128 | "Redefinir Senha" is enabled exactly for valid values while no submission runs |
| ResetPassword.ResetPasswordForm.constructor | src/components/reset-password-form.tsx:38-42 | the email is the address-bar parameter and there is no error |
| ResetPassword.ResetPasswordForm.BeginReset | src/components/reset-password-form.tsx:54-64 | only reachable with a non-empty email and valid values; the error is cleared |
| ResetPassword.ResetPasswordForm.SettleReset | src/components/reset-password-form.tsx:65-77 | success navigates to "/"; failure stores the caught message with no alternative |

## Left out

- Rendering (JSX, CSS classes, icons) and toast notifications are not modelled. A toast shows up only as a
  result value: `rejected` of `HandleDrop`, `NothingSelected`/`Prepared` of `HandleContinue`.
- Identity-provider calls (`signUp`, `confirmSignUp`, `resendSignUpCode`, `resetPassword`,
  `confirmResetPassword`) and the upload service are parameters. An `Outcome` is the value the call
  resolved with or what it threw. A boolean stands for whether the upload succeeded.
- The email format check of the validation library is a parameter `isEmail`.
- AuthFlow.MinLength and AuthFlow.CodeLength count a string's length in Unicode characters. The
  validation library's `.min(n)` and `code.length` count UTF-16 code units. The two agree on text
  without characters outside the Basic Multilingual Plane. They differ when such characters are
  present: a password of four emoji has JavaScript length 8, which the source accepts and the model
  rejects.
- Signup.SignupSchemaRule, ForgotPassword.ResetSchemaRule and ResetPassword.ResetPasswordSchemaRule claim
  exact agreement only on whether the values are accepted. The model does not capture the validation
  library's rules for how many issues it reports, in which order, or whether the refinement runs when a
  length rule already failed.
- Timers are collapsed. The one-second countdown effect is the `Tick` method, one call per elapsed second.
  The 1000 ms refresh delay falls between `BeginRefresh` and `SettleRefresh`. The 500 ms continue delay
  is inside `HandleContinue`. The forgotten-password form schedules its 2000 ms redirect only after the
  reset call has resolved. The model returns that redirect as the `redirect` result of
  `ForgotPassword.ForgotPasswordForm.SettleResetSubmit`. It does not model the 2 s wait before
  `router.push("/")`, during which the form still accepts input. Interleavings of other events during an
  `await` are not modelled.
- VideoUpload.UploadCard.HandleContinue: the busy state during its delay is visible only inside the
  method, because the await is collapsed.
- Media-element behaviour is not modelled: `handleLoadedMetadata`, `handleTimeUpdate`, the seek slider,
  the ±5 s skips, `onPlay`/`onPause` and the object URL created for the player.
- The editor passes a progress callback to `uploadVideos` (`src/components/video-editor.tsx:88-90`), but
  the service (`src/services/video-service.ts:54-66`) takes only the files and never calls it. So
  `uploadProgress` stays at 0 in the component, and it stays at 0 in the model as well.
- VideoEditor.FormatTime takes a non-negative exact real. NaN, infinity, negative positions and
  floating-point rounding are not modelled.
- VideoEditor.Editor.SelectEntry keys the reset on the queue index. The component keys it on the `File`
  object, so two entries that are the same object would not reset. The player's mount guard is the
  `PlayerMounted` predicate.
- VideoTable.StatusBadge, VideoTable.FilterVideos and VideoTable.StatusTabsPartition cover the four
  declared statuses only. The "Meus Vídeos" page maps the backend status `SUCCEEDED` to `"Succeeded"`
  (`src/app/(app)/meus-videos/page.tsx:18`), which is outside the declared type. Such a row gets the
  fallback badge, is kept only by the "all" tab and by values that are not a tab, and so falls outside
  the three-way split that StatusTabsPartition states. The model cannot represent such a row.
- The clock (`Date.now()`, `new Date().toISOString()`) is a parameter: one `Stamp` per submitted file.
- Routing is a returned `navigateTo`/`redirect` value. `router.push` itself is not modelled.
- The "N arquivo(s) selecionado(s)" and "N vídeo(s) selecionado(s)" counters, the keyboard handler of
  the drop zone and the click that opens the file picker are rendering-only and are not modelled.
- The login form, the sidebar, the service and HTTP-client modules and the page wrappers are not part
  of this model.
