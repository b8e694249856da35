# Travel-diary web client: a Dafny model of its interactive logic

The client lets a user sign in, reset a forgotten password, browse and
create diaries inside folders pinned to map positions, make folders public
or private, filter friends, and see notifications. All persistence lives
behind a REST API. What the client itself decides is small: a handful of
step machines and list operations inside components. This project models
those, with every server answer taken as a parameter.

Each component is one Dafny module:

- `PasswordReset` (`find_password.dfy`): the three-step reset wizard. The
  steps are EMAIL_INPUT = 1, CODE_VERIFICATION = 2 and PASSWORD_RESET = 3.
  The page is a class whose `Valid()` invariant says three things. The step
  is 1, 2 or 3. Past step 1 the e-mail is non-empty. At step 3 the code is
  the mock code "123456". `StepAfterSendCode` and `StepAfterSubmit` are the
  step transitions, proved never to decrease the step.
- `MockNotifications` (`notification_mock.dfy`) and `Notifications`
  (`notification_store.dfy`): the two notification providers. Adding
  prepends. Removing is a filter on the id, proved to drop exactly the
  entries with that id and to keep the rest in order. A fetched list
  replaces the store only on status 200.
- `MyPageView` (`my_page.dfy`) and `FolderCards` (`folder_card.dfy`): the
  page loads the user, then the folders, and projects each folder into a
  card summary. A card's switch flips the visibility only after the server
  accepts the change, and the page then updates the summaries with that
  folder id. `ToggleOnMyPage` chains the two and proves that page and card
  agree afterwards.
- `FriendsAdd` (`friends_add.dfy`): the status tabs as a filter over the
  fixed list, and the button label for each status. The search text is
  kept in state but never read, so the model has no query parameter.
- `BottomNav` (`bottom_navigation.dfy`): the centre button appears only on
  "/main". At most one item is highlighted.
- `MonthlyRecords` (`monthly_record.dfy`): the view/edit card with its
  temporary buffer. Its invariant is that outside edit mode the buffer
  equals the text.
- `Login` (`login_page.dfy`): the success rule (status 200 and a truthy
  access token) and the storage writes that follow it.
- `DiaryWriting` (`diary_write.dfy`) and `DiaryCreation`
  (`diary_create_modal.dfy`): the two diary forms. Both build the body
  defined in `DiaryApi` (`diary_api.dfy`). Each has its own guards, in the
  source's order.

Shared modules:

- `Browser`: optional values, the outcome of `fetch` (a decoded body or a
  rejection) and of axios (a 2xx body or an error with an optional status),
  user-visible effects (alerts, navigation, callback calls, in order), and
  `localStorage` as a class over a string map.
- `JsText`: `String.prototype.trim` over the full ECMAScript white-space
  and line-terminator set, `Number(string)` for route parameters, and the
  decimal text of an id.
- `Lists`: `Array.prototype.filter`, with its subsequence, count,
  keep-all, append and idempotence lemmas, and the removal by id that both
  notification providers use.

The two diary forms name the folder differently. The editor page sends
`Number(diary_id)`, a JSON number (src/pages/Diary/DiaryWrite.jsx:50).
The creation dialog passes on its `folderId` prop unchanged
(src/components/diary/DiaryCreateModal.jsx:37). The folder page fills that
prop from its route (src/pages/Diary/FolderMapPage.jsx:12, :101), so the
dialog sends the folder id as a JSON string.

The notification provider fetches only when storage holds a "userId"
(src/context/NotificationContext.jsx:14, :43). The login form writes the
tokens and "savedEmail" but no "userId"
(src/pages/Start/LoginPage.jsx:35-43). So a login through the form lets
the provider fetch only if an earlier session left a user id behind.
`Notifications.FetchesAfterLogin` states this.

`MonthlyRecord` (src/components/main/MonthlyRecord.jsx:9) takes no props.
`MyPage` passes it `monthlyNote` and `onUpdate` (src/pages/MyPage/MyPage.jsx:182-185),
but the card ignores both. So the note loaded from the server is never
shown, and `handleMonthlyNoteUpdate` is never called. The model keeps the
card as written, and models `handleMonthlyNoteUpdate` as the handler alone.

## Model

| member | source | states |
|---|---|---|
| PasswordReset.StepAfterSendCode | src/pages/Start/FindPasswordPage.jsx:23-33 | the step moves exactly when at EMAIL_INPUT with a non-empty e-mail, and then to CODE_VERIFICATION; the step never decreases and stays within 1..3 |
| PasswordReset.StepAfterSubmit | src/pages/Start/FindPasswordPage.jsx:39-47 | the step moves exactly when the code "123456" is submitted at CODE_VERIFICATION, and then to PASSWORD_RESET; the step never decreases and stays within 1..3 |
| PasswordReset.ResetOutcome | src/pages/Start/FindPasswordPage.jsx:65-76 | a decoded reply with status 200 gives the success alert and then navigation to "/"; any other status gives one alert with the reply's message, else "비밀번호 변경 실패"; a failed request gives one alert "서버 오류가 발생했습니다."; navigation to "/" happens exactly on status 200 |
| PasswordReset.FindPasswordPage.constructor | src/pages/Start/FindPasswordPage.jsx:16-20 | the wizard starts at EMAIL_INPUT with every field empty, and the invariant holds |
| PasswordReset.FindPasswordPage.TypeEmail | src/pages/Start/FindPasswordPage.jsx:96-100 | the e-mail can change only at EMAIL_INPUT, where its input is enabled |
| PasswordReset.FindPasswordPage.TypeAuthCode | src/pages/Start/FindPasswordPage.jsx:121-130 | the code can change only at CODE_VERIFICATION; the field is hidden before that step and disabled after it |
| PasswordReset.FindPasswordPage.TypePasswords | src/pages/Start/FindPasswordPage.jsx:134-157 | the two passwords can change only at PASSWORD_RESET, where their inputs exist |
| PasswordReset.FindPasswordPage.SendAuthCode | src/pages/Start/FindPasswordPage.jsx:23-33 | outside step 1 the disabled button does nothing; an empty e-mail gives an alert and keeps the step; a non-empty e-mail moves to CODE_VERIFICATION; the invariant is kept |
| PasswordReset.FindPasswordPage.Submit | src/pages/Start/FindPasswordPage.jsx:36-80 | at step 1 nothing happens; a wrong code gives an alert and keeps the step; a reset request is sent exactly at PASSWORD_RESET with equal passwords, and it carries the entered e-mail and new password; the invariant is kept |
| PasswordReset.CompleteReset | src/pages/Start/FindPasswordPage.jsx:23-62 | e-mail, then code "123456", then two equal passwords lead to a reset request for exactly that e-mail and password |
| MockNotifications.NotificationProvider.constructor | src/context/NotificationContext.js:14-20 | the store starts with three entries whose ids are 1, 2 and 3 |
| MockNotifications.NotificationProvider.AddNotification | src/context/NotificationContext.js:23-32 | the list grows by one; its head is a 'post' notice with the given name and link; its tail is the old list |
| MockNotifications.NotificationProvider.RemoveNotification | src/context/NotificationContext.js:35-37 | afterwards no entry has the id, and the list is the id filter of the old one |
| Lists.WithoutId | src/context/NotificationContext.js:36 | removal by id, shared by both providers: no entry of the result has the id; every entry with another id is kept; the result is an order-preserving subsequence |
| Lists.WithoutAbsentId | src/context/NotificationContext.jsx:60 | removing an id that no entry carries leaves the list unchanged |
| Lists.WithoutIdIdempotent | src/context/NotificationContext.js:36 | removing the same id twice is removing it once |
| Lists.WithoutIdCounts | src/context/NotificationContext.jsx:60 | every entry with another id is kept as many times as it occurred; entries with the id occur zero times |
| Notifications.NotificationProvider.constructor | src/context/NotificationContext.jsx:12 | the store starts empty |
| Notifications.NotificationProvider.FetchNotifications | src/context/NotificationContext.jsx:18-39 | a decoded reply with status 200 replaces the list with its `notification`; any other reply, or a failed request, leaves the list unchanged |
| Notifications.NotificationProvider.Mount | src/context/NotificationContext.jsx:14-46 | a fetch is made exactly when both the stored "userId" and the stored "accessToken" are truthy (`FetchesOnMount`); without one the list is unchanged |
| Notifications.FetchesAfterLogin | src/context/NotificationContext.jsx:14-46 | after a login through the login form, the provider fetches exactly when a truthy "userId" was already in storage before the login, because the form writes only the tokens and "savedEmail" |
| Notifications.NotificationProvider.AddNotification | src/context/NotificationContext.jsx:49-56 | the list grows by one; its head holds the given content, id and timestamp; its tail is the old list |
| Notifications.NotificationProvider.RemoveNotification | src/context/NotificationContext.jsx:59-61 | afterwards no entry has the id, and the list is the id filter of the old one |
| MyPageView.CoverImage | src/pages/MyPage/MyPage.jsx:53-56 | the image is the folder's own cover if truthy, else the first diary's main photo if there is one and it is truthy, else "/placeholder.png"; it is never empty |
| MyPageView.ProjectFolders | src/pages/MyPage/MyPage.jsx:48-57 | one summary per folder, in order; id, title and visibility are copied; the diary count is the number of the folder's diaries; the image is the cover fallback and is never empty |
| MyPageView.WithVisibility | src/pages/MyPage/MyPage.jsx:79-85 | folders with the id get the new visibility; the other folders keep theirs; no other field of any folder changes; length and order are kept |
| MyPageView.WithVisibilityIdempotent | src/pages/MyPage/MyPage.jsx:79-85 | applying the same visibility update twice gives the same list as applying it once |
| MyPageView.MyPage.constructor | src/pages/MyPage/MyPage.jsx:17-19 | no user, no folders, and loading |
| MyPageView.MyPage.FetchMyPageData | src/pages/MyPage/MyPage.jsx:26-70 | without a token: no request, navigation to "/login", nothing else changes; with a token: the user endpoint is called, then the folders endpoint only after the user was loaded; the user and then the projected folders are set from the replies that succeeded; a 401 on either call (`SessionExpired`) clears storage, alerts and redirects to "/login"; any other failure changes neither storage nor effects; loading is false in every outcome |
| MyPageView.MyPage.HandleMonthlyNoteUpdate | src/pages/MyPage/MyPage.jsx:73-75 | only the user's monthly note changes, to the new note |
| MyPageView.MyPage.HandleTogglePublic | src/pages/MyPage/MyPage.jsx:78-86 | the folders become their visibility update for the id |
| MyPageView.Logout | src/pages/MyPage/MyPage.jsx:132-136 | a confirmed logout empties storage and opens "/"; an unconfirmed one changes nothing |
| MyPageView.ToggleOnMyPage | src/pages/MyPage/MyPage.jsx:159-170 | after an accepted switch the card shows the opposite of what it showed, and the page's folders are their visibility update for that folder id with the card's new value, so every summary of that folder agrees with the card and every other folder is unchanged; after a refused one, neither the card's visibility nor the page's folders change; the switch is enabled again in both cases |
| FolderCards.FolderCard.constructor | src/components/mypage/FolderCard.jsx:16-17 | the card shows the visibility it was given and is not busy |
| FolderCards.FolderCard.BeginToggle | src/components/mypage/FolderCard.jsx:22-31 | the card becomes busy, so its switch is disabled, and it requests the negation of the visibility it shows |
| FolderCards.FolderCard.FinishToggle | src/components/mypage/FolderCard.jsx:33-42 | on success the shown visibility becomes the requested one, and the parent gets (folderId, new value) if it passed a callback; on failure the visibility is kept, the parent is not called, and an alert is shown; either way the card is no longer busy |
| FolderCards.FolderCard.HandleToggle | src/components/mypage/FolderCard.jsx:19-43 | a whole click: the shown visibility flips exactly when the request succeeds, the parent hears of it only then, and the switch is enabled again in every outcome |
| FriendsAdd.Filtered | src/pages/Friend/FriendsAdd.jsx:16-21 | the result is an order-preserving subsequence; "요청 중" keeps exactly the status "요청" entries; "친구" keeps exactly the status "수락됨" entries; "전체" and any other tab keep the list unchanged |
| FriendsAdd.FilteredCounts | src/pages/Friend/FriendsAdd.jsx:16-21 | under "요청 중" and "친구", each person with that tab's status appears as often as in the list, and nobody else appears |
| FriendsAdd.ButtonLabel | src/pages/Friend/FriendsAdd.jsx:67-71 | "요청 보내기" exactly for status "없음"; "요청 취소" exactly for "요청"; "친구" exactly for every other status |
| FriendsAdd.TabsMatchLabels | src/pages/Friend/FriendsAdd.jsx:16-71 | everyone under the "요청 중" tab has the cancel label, and everyone under the "친구" tab has the friend label |
| FriendsAdd.TabsOnSampleList | src/pages/Friend/FriendsAdd.jsx:8-21 | on the screen's own list, "요청 중" shows 지우 and 바람, "친구" shows 도윤 and 가을, and "전체" shows all five |
| BottomNav.FilteredItems | src/components/layout/BottomNavigation.jsx:23-28 | on "/main" all five items in declared order; anywhere else the four links without the centre button, order kept |
| BottomNav.LinksOnly | src/components/layout/BottomNavigation.jsx:26-28 | filtering out the centre item leaves home, friends, alarm and my-page, in that order |
| BottomNav.AtMostOneActive | src/components/layout/BottomNavigation.jsx:8-43 | an item is highlighted when its link equals the current path (`IsActive`, line 43); on any page no two shown items are highlighted, and a highlighted item is a link to that page, never the centre button; on each of the four linked pages exactly one item is highlighted |
| MonthlyRecords.MonthlyRecord.constructor | src/components/main/MonthlyRecord.jsx:7-15 | text and buffer both hold the initial record, and the card is in view mode |
| MonthlyRecords.MonthlyRecord.StartEditing | src/components/main/MonthlyRecord.jsx:31-34 | edit mode is entered with the buffer holding the current text |
| MonthlyRecords.MonthlyRecord.Type | src/components/main/MonthlyRecord.jsx:49-52 | the buffer takes the typed text, only in edit mode, where the field exists |
| MonthlyRecords.MonthlyRecord.SaveRecord | src/components/main/MonthlyRecord.jsx:25-28 | the text becomes the buffer, and edit mode ends |
| MonthlyRecords.MonthlyRecord.HandleKeyDown | src/components/main/MonthlyRecord.jsx:18-22 | Enter saves; any other key changes neither the text nor the mode |
| MonthlyRecords.EditWithoutTyping | src/components/main/MonthlyRecord.jsx:25-34 | starting an edit and saving without typing leaves the text unchanged |
| MonthlyRecords.EditAndPressEnter | src/components/main/MonthlyRecord.jsx:18-34 | starting an edit, typing and pressing Enter makes the typed text the record |
| Login.StorageAfterLogin | src/pages/Start/LoginPage.jsx:35-43 | after a success the access token is stored; the refresh token is stored, or "" when it is missing; "savedEmail" is present exactly when "remember me" is ticked, and then holds the e-mail; every other key is untouched |
| Login.LoginPage.constructor | src/pages/Start/LoginPage.jsx:7-9 | empty e-mail and password, "remember me" unticked |
| Login.LoginPage.Fill | src/pages/Start/LoginPage.jsx:69-112 | the inputs set the e-mail, the password and the remember flag |
| Login.LoginPage.HandleLogin | src/pages/Start/LoginPage.jsx:12-53 | the request carries the e-mail as id and the password; on status 200 with a truthy access token (`Succeeds`, line 31), storage becomes its post-login state and the page alerts and goes to "/main"; otherwise storage is untouched and the alert is the reply's message, else "로그인 실패", or the connection message when the request failed |
| DiaryWriting.CanSubmitIffVisibleText | src/pages/Diary/DiaryWrite.jsx:43-46 | a diary may be sent exactly when both title and text contain a character that is not white space |
| DiaryWriting.MapZoom | src/pages/Diary/DiaryWrite.jsx:79 | zoom 10 exactly when a position is chosen, 2 exactly when none is |
| DiaryWriting.MapCenter | src/pages/Diary/DiaryWrite.jsx:78 | the map centres on the chosen position, else on (20, 0) |
| DiaryWriting.DiaryWrite.constructor | src/pages/Diary/DiaryWrite.jsx:17-26 | empty title and text, visibility "public", no photos, no position, picker closed |
| DiaryWriting.DiaryWrite.Fill | src/pages/Diary/DiaryWrite.jsx:93-171 | the inputs set title, text and visibility |
| DiaryWriting.DiaryWrite.AddPhotos | src/pages/Diary/DiaryWrite.jsx:36-40 | the new URLs come after the existing photos, both in order; the old list is a prefix of the new one |
| DiaryWriting.DiaryWrite.OpenLocationPicker | src/pages/Diary/DiaryWrite.jsx:81 | a click on the map opens the picker |
| DiaryWriting.DiaryWrite.CloseLocationPicker | src/pages/Diary/DiaryWrite.jsx:186 | the picker's close button shuts it |
| DiaryWriting.DiaryWrite.SelectLocation | src/pages/Diary/DiaryWrite.jsx:187-190 | choosing a position sets it and closes the picker; the map then zooms to 10 |
| DiaryWriting.DiaryWrite.Submit | src/pages/Diary/DiaryWrite.jsx:42-64 | a request is made exactly when neither title nor text is blank after trimming; it carries `Number(diary_id)` as a JSON number for the folder, the title, the text, the photos, theme "default" and the chosen position; a refusal alerts; a success alerts and goes back; a failure alerts |
| DiaryWriting.SubmitToFolder | src/pages/Diary/DiaryWrite.jsx:49-50 | on a route whose `diary_id` is the decimal text of n, the request names folder n, as the number n |
| DiaryCreation.Rejection | src/components/diary/DiaryCreateModal.jsx:25-33 | a blank title is refused first, with its own message, whatever the position; then a missing position is refused; nothing else is refused |
| DiaryCreation.DiaryPathNamesDiary | src/components/diary/DiaryCreateModal.jsx:52-54 | the page opened for a new diary is "/diary/" followed by text that `Number` reads back as the diary's id |
| DiaryCreation.AfterCreated | src/components/diary/DiaryCreateModal.jsx:45-54 | after a creation `onCreated` runs first exactly when it was given, then `onClose`, which always runs; navigation happens exactly when the reply has a truthy `diary_id`, comes last, and goes to "/diary/" followed by that id; nothing else happens, since the sequence has exactly one entry per step taken |
| DiaryCreation.DiaryCreateModal.constructor | src/components/diary/DiaryCreateModal.jsx:10-20 | empty title, empty text, no position, picker closed |
| DiaryCreation.DiaryCreateModal.TypeTitle | src/components/diary/DiaryCreateModal.jsx:84 | the input sets the title |
| DiaryCreation.DiaryCreateModal.OpenLocationPicker | src/components/diary/DiaryCreateModal.jsx:91 | the "add position" button opens the picker |
| DiaryCreation.DiaryCreateModal.CloseLocationPicker | src/components/diary/DiaryCreateModal.jsx:116 | the picker's close button shuts it |
| DiaryCreation.DiaryCreateModal.PickLocation | src/components/diary/DiaryCreateModal.jsx:117-120 | picking a position sets it and closes the picker |
| DiaryCreation.CreateFromFolderRoute | src/pages/Diary/FolderMapPage.jsx:100-104 | opened from the folder page on the route of folder n, the dialog's request names the folder by the text of n, not by the number n that the editor page sends |
| DiaryCreation.DiaryCreateModal.Submit | src/components/diary/DiaryCreateModal.jsx:22-60 | a request is made exactly when the guard lets it through, and otherwise the guard's message is alerted; the request has the `folderId` prop as a JSON string, the title, empty text, no photos, a null theme and the position; success runs `onCreated` (if given), `onClose`, then navigation when the reply names the diary; failure alerts |
| JsText.BlankIffAllWhiteSpace | src/pages/Diary/DiaryWrite.jsx:43 | `!s.trim()` holds exactly when every character of s is white space |
| JsText.TrimIsInnerSlice | src/components/diary/DiaryCreateModal.jsx:25 | `trim` returns the slice of the text between its leading and trailing white space, and removes only white space |
| JsText.NumberOfDecimalString | src/pages/Diary/DiaryWrite.jsx:50 | `Number` applied to the decimal text of a non-negative integer gives that integer back |

## Left out

- HTTP transport (fetch and axios), headers and URLs are not modelled. Each
  reply is a parameter of the handler that awaits it. Only the body fields
  the code reads are modelled. Other JSON shapes are not: a non-numeric
  `status`, or a body without `data`.
- Asynchrony and React mechanics are not modelled: render timing, batched
  state updates, effect dependencies, refs. Each handler runs to completion
  in one step. `FolderCard` is split into `BeginToggle` and `FinishToggle`
  so that the busy state between them is visible. A second click that lands
  before the re-render disables the switch is not modelled.
- The browser's own form checks are not modelled. These are the `required`
  inputs of the password and login forms, which can block a submission
  before the handler runs.
- `alert`, `confirm`, `navigate` and `console` are not modelled as calls.
  Alerts and navigations are returned, in order, as effects. `console`
  output is dropped. The logout `confirm` answer is a parameter.
- `Date.now()` and `new Date().toISOString()` in both notification
  providers are parameters, because they are nondeterministic.
- `URL.createObjectURL` is a browser API. The photo URLs it makes are
  opaque strings passed to `AddPhotos`.
- The map widget, the location picker and the `toFixed` display of
  coordinates are foreign code and floating point. A position is an opaque
  `LatLng` value.
- The notification list endpoint is assumed to return entries shaped like
  the ones `addNotification` builds (`id`, `content`, `created_at`). The
  list item component describes the server's entries as `noti_id`,
  `content` and `created_at` (src/components/friend/NotificationItem.jsx:3-9).
  With that shape `n.id` is undefined, so `removeNotification`
  (src/context/NotificationContext.jsx:60) would keep every fetched entry.
  The model does not capture that.
- JsText.ToNumber: models `Number(s)` only for blank text and runs of
  decimal digits. Signs, fractions, exponents, hexadecimal and "Infinity"
  are read as NaN, though JavaScript gives a number for them. A digit run
  is read exactly, while JavaScript rounds one beyond 2^53 to the nearest
  double.
- JsText.DecimalString: writes plain digits for every size of number,
  while a template literal writes an id of 10^21 or more in exponent
  notation.
- DiaryCreation.DiaryPath: ids are non-negative integers. A negative or
  string `diary_id` in the reply is not modelled.
- `MonthlyRecord` ignores the props `MyPage` passes it (see above), and the
  model keeps that.
- Rendering, CSS classes and every other file of the repository are not
  part of this model, apart from the folder page handing its route
  parameter to the creation dialog. That includes the folder card's "camera" branch for a
  missing image. `MyPageView.CoverImage` shows that branch cannot be taken
  for a card built by the page.
