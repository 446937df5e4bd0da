# TaskFlow client: a verified model of its core

TaskFlow is a React task manager. This project models in Dafny the client logic that
decides what a user sees and which requests go out. It also models the in-memory
backend the client's tests run against.

- **Dashboard** (`dashboard.dfy`) covers these derivations:
  - the visible list: status filter plus case-insensitive search;
  - the status distribution and the completion rate;
  - the per-day creation trend;
  - the mirroring of filter and search into the URL.

  It also covers the page's state changes: mount, fetch, opening and editing the
  dialog, saving an edit, and deleting a task.
- **Forms** (`login.dfy`, `register.dfy`, `task_create.dfy`): each form has its reducer,
  its `canSubmit` gate, its validation flags, its trimmed payload, and its submit
  handler with the success and failure paths.
- **Route guard** (`protected_route.dfy`): the authentication flag, the
  `storage` and `visibilitychange` listeners, and the redirect to `/login` that
  remembers where the user came from.
- **Fake server** (`fake_server.dfy`): the task table with reset, list, create
  (id = max + 1), merge-update and delete.

Shared pieces:
- `js_string.dfy` has the JavaScript string semantics the code depends on:
  - `trim` removes exactly the ECMAScript WhiteSpace and LineTerminator characters;
  - `length` counts UTF-16 code units;
  - `includes`, `toLowerCase` and `<`.
- `task_record.dfy` has task records, the object spread `{ ...t, ...patch }`, and
  the update and delete by id that both the dashboard and the server perform.
- `seqs.dfy` has `filter` and counting.
- `session_store.dfy` has `localStorage`.
- `effects.dfy` has requests, toasts and navigations.

Every network call is an input. The handler receives an `Outcome`: the resolved data,
or an error carrying the server's `message` and the transport message. The handler
returns the request it sent (or `None` when it sends nothing), together with the toast,
alert or navigation it produced. `new Date(raw).toISOString().split("T")[0]` is a
parameter `dayKey` that answers `None` for an invalid date. On an invalid date
`toISOString` throws a `RangeError`, so `TrendData` answers `None`.

Behaviour of the code that is easy to misread:

- The completion rate is `Math.round(completed / total * 100)`. So it is 0 not only
  when nothing is done. It is also 0 when less than half a percent is done (1 of 201).
  `RateZeroAndFull` states the exact condition.
- The three status counts add up to the number of visible tasks only when every
  visible task has one of the three known statuses. The loop skips any other status.
  `StatusCountsSum` states both facts.
- After login the page returns only to `from.pathname`. The search and the hash of
  the guarded location are dropped.
- A login answer without `token` stores the string "undefined", and a `null` token
  stores "null". Both are non-empty tokens, so the guard accepts them
  (`LoginSatisfiesGuard`). A `null` answer body makes `data.token` throw, which the
  page reports like a failed login (`Submit`).
- The fake server's PUT spreads the whole body, `id` included. A body carrying another
  task's id therefore makes two records share an id (`PutCanDuplicateIds`). Ids stay
  unique whenever the body has no `id` or the path's id, which is all the client ever
  sends (`ClientPutKeepsIdsUnique`).
- A task without a `status` key is visible under a filter that is neither "全部" nor
  a label, such as a hand-edited `?status=xyz`. `LABEL_STATUS[statusFilter]` is then
  `undefined`, and so is the task's status (`FilterByLabel`).
- A task without a title opens the edit dialog with an `undefined` title. Saving then
  fails inside the `try` on `trim()`, and the page shows "更新失敗" (`SaveEdit`).

## Model

| member | source | states |
|---|---|---|
| JsString.TrimStartSpec | src/pages/Dashboard.js:86 | `trimStart` yields the suffix that starts at the first non-whitespace character, and everything dropped is whitespace |
| JsString.TrimEndSpec | src/pages/Dashboard.js:86 | `trimEnd` yields the prefix that ends at the last non-whitespace character, and everything dropped is whitespace |
| JsString.TrimSpec | src/pages/TaskCreate.js:42-47 | a trimmed string is empty exactly when the input is all whitespace; otherwise it starts and ends with non-whitespace |
| JsString.TrimIdempotent | src/pages/Dashboard.js:67 | trimming twice equals trimming once, so the `q` written to the URL trims to itself |
| JsString.ToLower | src/pages/Dashboard.js:94-95 | lower-casing keeps the length and maps each character through the ASCII case map |
| JsString.IncludesIffOccurs | src/pages/Dashboard.js:96 | `s.includes(needle)` holds exactly when `needle` occurs at some index of `s` |
| JsString.Utf16Length | src/pages/Login.js:30 | `length` counts UTF-16 code units, between one and two per character |
| JsString.Utf16LengthOfBmp | src/pages/Register.js:78 | for text inside the Basic Multilingual Plane, `length` is the number of characters |
| JsString.LessIrreflexive | src/pages/Dashboard.js:128 | no date string sorts before itself |
| JsString.LessTransitive | src/pages/Dashboard.js:128 | the string order used by the trend sort is transitive |
| JsString.LessTotal | src/pages/Dashboard.js:128 | two different date strings are always ordered one way or the other |
| JsString.LessAsymmetric | src/pages/Dashboard.js:128 | the comparator never puts two strings in both orders |
| Seqs.Filter | src/pages/Dashboard.js:89-97 | a filter result is no longer than its input, and every element kept comes from the input and passes the test |
| Seqs.FilterMembership | src/pages/Dashboard.js:89-97 | an element is kept exactly when it is in the input and passes the test |
| Seqs.FilterIsSubsequence | src/pages/Dashboard.js:89-97 | the filter keeps the original order |
| Seqs.FilterMultiset | src/pages/Dashboard.js:184 | each value that passes is kept as often as it occurs, and every other value is dropped |
| Seqs.FilterAppend | src/pages/Dashboard.js:108-110 | filtering a concatenation filters each part |
| Seqs.FilterAll | src/pages/Dashboard.js:90-93 | a test that every element passes leaves the sequence unchanged |
| Seqs.FilterCommute | src/pages/Dashboard.js:184 | two filters give the same result in either order |
| TaskRecord.Merge | src/pages/Dashboard.js:168 | `{ ...t, ...p }` takes every key present in `p` from `p` and keeps every other key of `t` |
| TaskRecord.MergeIdempotent | src/pages/Dashboard.js:168 | spreading the same answer twice over a record changes nothing more |
| TaskRecord.ReplaceById | src/pages/Dashboard.js:168 | the update by id keeps the length, merges the records with that id and leaves every other record as it was |
| TaskRecord.ReplaceKeepsIds | src/_tests_/__mocks__/server.js:42 | a patch without a different id keeps every id, and so keeps ids unique |
| TaskRecord.ReplaceMissing | src/_tests_/__mocks__/server.js:42 | updating an id that is absent changes nothing |
| TaskRecord.RemoveById | src/pages/Dashboard.js:184 | after the delete no record has the id |
| TaskRecord.RemoveByIdSpec | src/_tests_/__mocks__/server.js:50 | a record survives exactly when it was there and has another id; order and id uniqueness are kept |
| TaskRecord.RemoveKeepsUnique | src/_tests_/__mocks__/server.js:50 | deleting keeps ids unique |
| TaskRecord.RemoveLength | src/_tests_/__mocks__/server.js:50 | with unique ids, a delete removes one record when the id is present and none otherwise |
| SessionStore.Storage.GetItem | src/pages/Dashboard.js:53 | `getItem` answers the stored value of a key, or `null` for a key never set |
| SessionStore.Storage.SetItem | src/pages/Login.js:45 | `setItem` replaces that key's value and leaves every other key alone |
| ProtectedRoute.AfterStorageEvent | src/components/ProtectedRoute.js:13-15 | a `storage` event for `token` sets the flag to whether the new value is non-empty; an event for any other key leaves it alone |
| ProtectedRoute.Decide | src/components/ProtectedRoute.js:29-33 | the outlet renders exactly when authenticated; otherwise the guard redirects to `/login`, replacing the entry and passing the current location as `from` |
| ProtectedRoute.StorageEventResyncs | src/components/ProtectedRoute.js:13-15 | after another tab writes or removes the token, the flag agrees with the store |
| ProtectedRoute.ClearEventLeavesFlagStale | src/components/ProtectedRoute.js:14 | a `storage` event with no key, which is what `localStorage.clear()` sends, leaves the flag true although no token remains |
| ProtectedRoute.Guard.constructor | src/components/ProtectedRoute.js:9 | the flag starts as whether a non-empty token is stored |
| ProtectedRoute.Guard.OnStorage | src/components/ProtectedRoute.js:13-15 | the flag follows `AfterStorageEvent` |
| ProtectedRoute.Guard.OnVisibility | src/components/ProtectedRoute.js:19 | the flag is re-read from the store, and the store is untouched |
| Effects.Reason | src/pages/TaskCreate.js:66 | the failure text is the server's `message` when there is one, else the transport error's message |
| Login.Reduce | src/pages/Login.js:7-14 | `change` sets only the named field, `reset` restores the empty form, and any other action changes nothing |
| Login.LoginPage.constructor | src/pages/Login.js:17 | `useReducer` starts from the empty form |
| Login.LoginPage.Dispatch | src/pages/Login.js:64 | `dispatch` replaces the form by `Reduce` of it |
| Login.CanSubmit | src/pages/Login.js:29-32 | submitting is enabled exactly when the email is not blank and the password has at least 6 UTF-16 units; 6 characters always suffice and fewer than 3 never do |
| Login.InitialCannotSubmit | src/pages/Login.js:29-32 | the empty form cannot be submitted |
| Login.PayloadOf | src/pages/Login.js:40-43 | the email is sent trimmed and the password untouched; a submittable form sends a non-empty email and a password of at least 6 UTF-16 units |
| Login.StoredToken | src/pages/Login.js:45 | the stored text is the string form of `data.token`: "undefined" when missing, "null" for `null`, the string itself, or another value's string form; it is empty only for "" or a value whose string form is empty |
| Login.ReturnTarget | src/pages/Login.js:47 | the user returns to `from.pathname` when there is one, otherwise to `/dashboard` |
| Login.GuardRedirectReturnsHere | src/pages/Login.js:47-48 | after the guard's redirect, logging in leads back to the guarded pathname |
| Login.MountRedirect | src/pages/Login.js:24-26 | an already stored token sends the user to `/dashboard` with replace, and only then |
| Login.LoginPage.Submit | src/pages/Login.js:34-53 | nothing is sent unless the form can be submitted; success stores the token and navigates with replace to the return target; a `null` body throws on `data.token` and, like a failure, raises the `❌ 登入失敗：` alert, with the server's message or else the error's message, storing nothing and staying |
| Login.LoginSatisfiesGuard | src/pages/Login.js:45 | after a successful login the guard lets the user in exactly when the stored text is non-empty, so a missing or `null` token is accepted |
| Register.Reduce | src/pages/Register.js:7-14 | `change` sets only the named field, `reset` restores the empty form, and any other action changes nothing |
| Register.RegisterPage.constructor | src/pages/Register.js:17 | `useReducer` starts from the empty form |
| Register.RegisterPage.Dispatch | src/pages/Register.js:57 | `dispatch` replaces the form by `Reduce` of it |
| Register.CanSubmit | src/pages/Register.js:23-25 | submitting is enabled exactly when username and email are not blank and the password has at least 6 UTF-16 units; 6 characters always suffice and fewer than 3 never do |
| Register.UsernameError | src/pages/Register.js:59-60 | the username shows "必填" exactly while it is blank |
| Register.EmailError | src/pages/Register.js:68-69 | the email shows "必填" exactly while it is blank |
| Register.PasswordError | src/pages/Register.js:78-79 | "至少 6 碼" never shows for an empty password or one of 6 characters, and always shows for 1 or 2 characters |
| Register.CanSubmitIffNoErrors | src/pages/Register.js:23-25 | the form can be submitted exactly when no field shows an error and the password is not empty |
| Register.InitialFlags | src/pages/Register.js:59-79 | the empty form flags username and email as required, does not flag the password, and cannot be submitted |
| Register.PayloadOf | src/pages/Register.js:34-38 | username and email are sent trimmed and the password untouched |
| Register.RegisterPage.Submit | src/pages/Register.js:27-47 | nothing is sent unless the form can be submitted; success shows the success alert and navigates to `/login` with replace; failure shows the `❌ 註冊失敗：` alert and stays |
| TaskCreate.Reduce | src/pages/TaskCreate.js:20-27 | `change` sets only the named field, `reset` restores `{ "", "", "todo" }`, and any other action changes nothing |
| TaskCreate.TaskCreatePage.constructor | src/pages/TaskCreate.js:31-33 | the form starts as `initialForm`, with no submission in flight and no attempt made |
| TaskCreate.TaskCreatePage.Dispatch | src/pages/TaskCreate.js:88 | `dispatch` replaces the form by `Reduce` of it and touches nothing else |
| TaskCreate.CanSubmit | src/pages/TaskCreate.js:42-43 | submitting is enabled exactly when the title is not blank and nothing is in flight |
| TaskCreate.TitleError | src/pages/TaskCreate.js:90-91 | "標題不可為空" shows exactly when a submit was attempted and the title is blank, and never beside an enabled button |
| TaskCreate.ChangeSameFieldLastWins | src/pages/TaskCreate.js:23 | of two changes to the same field, the later one wins |
| TaskCreate.ChangesCommute | src/pages/TaskCreate.js:23 | changes to different fields give the same form in either order |
| TaskCreate.InitialCannotSubmit | src/pages/TaskCreate.js:42-43 | the initial form cannot be submitted |
| TaskCreate.PayloadOf | src/pages/TaskCreate.js:54-58 | title and description are sent trimmed and the status as chosen |
| TaskCreate.TaskCreatePage.Submit | src/pages/TaskCreate.js:45-71 | a blank title marks the attempt and sends nothing; otherwise it posts the payload, then on success resets the form, clears the attempt and shows the success toast, and on failure keeps the form and shows `❌ 新增失敗：` with the reason; no submission is in flight afterwards |
| TaskCreate.ResetFormCannotSubmit | src/pages/TaskCreate.js:60-61 | after a successful submit the form is empty, cannot be resubmitted and shows no title error |
| Dashboard.LabelTablesInverse | src/pages/Dashboard.js:25-26 | the two label tables are inverse bijections between the three codes and the three labels, and "全部" is not a label |
| Dashboard.InitialFilter | src/pages/Dashboard.js:39-41 | the filter starts from the `status` parameter when it is non-empty, else "全部" |
| Dashboard.InitialQuery | src/pages/Dashboard.js:42 | the search text starts from the `q` parameter, else "" |
| Dashboard.SyncParams | src/pages/Dashboard.js:64-69 | the URL holds `status` exactly when the filter is not "全部", `q` exactly when the trimmed search is non-empty, and nothing else |
| Dashboard.SyncRoundTrip | src/pages/Dashboard.js:39-69 | reading the written parameters back gives the same filter and the trimmed search |
| Dashboard.StatusLabelOf | src/pages/Dashboard.js:101 | a known status is shown by its label, any other string as it is, and a missing status stays `undefined` |
| Dashboard.Needle | src/pages/Dashboard.js:86 | the needle is never longer than the search text, and is empty exactly when the text is blank |
| Dashboard.StatusKey | src/pages/Dashboard.js:87 | `statusKey` is defined exactly for the three labels, and is the code whose label is the filter |
| Dashboard.StatusOk | src/pages/Dashboard.js:90 | every task passes under "全部"; under a label, exactly the tasks whose status code has that label; under any other filter, exactly the tasks without a status |
| Dashboard.SearchOk | src/pages/Dashboard.js:93-96 | a blank needle keeps every task; otherwise a task passes exactly when the needle occurs in its lower-cased title (`""` when missing) or description |
| Dashboard.ViewTasks | src/pages/Dashboard.js:85-103 | the visible list is the tasks that pass `StatusOk` and `SearchOk`, in order, each labelled by `StatusLabelOf` |
| Dashboard.ViewMembership | src/pages/Dashboard.js:89-97 | a task is visible exactly when it is in the collection, passes the status test and passes the search test; the view keeps the order |
| Dashboard.FilterByLabel | src/pages/Dashboard.js:87-90 | under a label, the visible tasks are those whose status shows that label; under a filter that is neither "全部" nor a label, exactly the tasks without a status |
| Dashboard.BlankQueryIsNoOp | src/pages/Dashboard.js:86-93 | a search text that is blank after trimming filters nothing |
| Dashboard.AllWithoutSearchShowsEverything | src/pages/Dashboard.js:90-93 | under "全部" with a blank search, every task is visible, in order |
| Dashboard.TrimmedQuerySameView | src/pages/Dashboard.js:86 | the trimmed search text gives the same view as the raw text |
| Dashboard.ReloadReproducesView | src/pages/Dashboard.js:39-103 | reloading from the parameters the page wrote reproduces the same view |
| Dashboard.SearchFindsSubstring | src/pages/Dashboard.js:86-96 | the search " 任務 " matches the title "第一個任務" |
| Dashboard.SearchIgnoresCase | src/pages/Dashboard.js:86-96 | the search "DEMO" matches the description "demo" |
| Dashboard.CountStatus | src/pages/Dashboard.js:108-110 | a status count never exceeds the number of visible tasks |
| Dashboard.StatusData | src/pages/Dashboard.js:106-116 | three slices in the order todo, in progress, done, each labelled and counting the visible tasks with that status |
| Dashboard.StatusCountsSum | src/pages/Dashboard.js:106-116 | the three counts add up to the number of visible tasks with a known status, which is all of them when every status is known |
| Dashboard.Rate | src/pages/Dashboard.js:135 | the rate is 0 with no visible tasks, else the whole percentage nearest to completed/total, halves rounded up |
| Dashboard.RateBetween0And100 | src/pages/Dashboard.js:135 | the rate lies between 0 and 100 when completed ≤ total |
| Dashboard.RateZeroAndFull | src/pages/Dashboard.js:135 | the rate is 0 exactly when nothing is visible or under half a percent is done; it is 100 when everything visible is done |
| Dashboard.CompletionRateIsPercentage | src/pages/Dashboard.js:133-135 | the done count never exceeds the visible count, so the rate shown is a percentage |
| Dashboard.EmptyDashboardRate | src/pages/Dashboard.js:133-135 | with no tasks the card reads 0 / 0 (0%) |
| Dashboard.FixtureDistribution | src/pages/Dashboard.js:106-135 | one todo task and one done task give counts 1 / 0 / 1 and a rate of 50 |
| Dashboard.Timestamp | src/pages/Dashboard.js:122 | the raw timestamp is `created_at` when present, else `createdAt`, and empty exactly when both are |
| Dashboard.InsertAscending | src/pages/Dashboard.js:128 | inserting a new date into an ascending list keeps it ascending |
| Dashboard.SortAscending | src/pages/Dashboard.js:127-129 | sorting entries with distinct dates yields strictly ascending dates |
| Dashboard.SortByDate | src/pages/Dashboard.js:127-129 | sorting is a permutation of the entries |
| Dashboard.SortKeepsSum | src/pages/Dashboard.js:127-129 | sorting keeps the total of the counts |
| Dashboard.AccumulateSkip | src/pages/Dashboard.js:122-123 | a task with neither timestamp leaves the per-day tally as it is |
| Dashboard.AccumulateBump | src/pages/Dashboard.js:124-125 | a task on a day already seen adds one to that day only |
| Dashboard.AccumulateNew | src/pages/Dashboard.js:124-125 | a task on a new day starts that day at one, after the days already seen |
| Dashboard.SortedEntriesAreTrend | src/pages/Dashboard.js:127-129 | sorting a complete tally gives the trend |
| Dashboard.TrendData | src/pages/Dashboard.js:119-130 | no result exactly when some present timestamp is not a valid date; otherwise one point per creation day, dates strictly ascending, each point counting that day's tasks, and the counts summing to the number of timestamped tasks |
| Dashboard.EditChanged | src/pages/Dashboard.js:151-153 | a dialog change sets only the named field |
| Dashboard.EditFormOf | src/pages/Dashboard.js:140-148 | opening the dialog copies the task's id, title and status as they are, and its description |
| Dashboard.PutOf | src/pages/Dashboard.js:158-163 | no request when the title is missing (its `trim()` throws); otherwise the PUT carries the dialog's id in its path, the title and description trimmed and the status as chosen, and its title is empty exactly when the dialog's is blank |
| Dashboard.PatchOf | src/pages/Dashboard.js:158-162 | the PUT body spreads over a record as a patch with its title, description and status, and never an id or a timestamp |
| Dashboard.ApplyUpdate | src/pages/Dashboard.js:168 | the answer is spread over the task with the dialog's id; a `null` id matches no task |
| Dashboard.ErrorText | src/pages/Dashboard.js:173 | the error shown is the server's message when there is one, else the fallback text |
| Dashboard.DeleteHidesTask | src/pages/Dashboard.js:184 | after a delete the task is in no view, and every other visible task stays visible, in order |
| Dashboard.UpdateKeepsUniqueIds | src/pages/Dashboard.js:168 | an update whose answer keeps the id keeps the length and the uniqueness of ids |
| Dashboard.UpdateTwiceIsOnce | src/pages/Dashboard.js:168 | spreading the same answer a second time, as a repeated save does, leaves the list as the first spread left it |
| Dashboard.DashboardPage.constructor | src/pages/Dashboard.js:36-49 | no tasks, no error, loading, filter and search from the URL, dialog closed on `{ null, "", "", "todo" }` |
| Dashboard.DashboardPage.View | src/pages/Dashboard.js:85-103 | the visible list of the current state |
| Dashboard.DashboardPage.Params | src/pages/Dashboard.js:64-69 | the URL parameters of the current state |
| Dashboard.DashboardPage.ApplyFetch | src/pages/Dashboard.js:72-82 | the list becomes the answer, `[]` when it carries no data; failure shows "無法載入任務"; loading ends either way |
| Dashboard.DashboardPage.Mount | src/pages/Dashboard.js:52-61 | without a token: the unauthorized error, a push to `/login`, no fetch, loading left on; with one: the fetch |
| Dashboard.DashboardPage.SetFilter | src/pages/Dashboard.js:217 | only the filter changes |
| Dashboard.DashboardPage.SetQuery | src/pages/Dashboard.js:233 | only the search text changes |
| Dashboard.DashboardPage.OpenEdit | src/pages/Dashboard.js:140-148 | the dialog opens on the task |
| Dashboard.DashboardPage.CloseEdit | src/pages/Dashboard.js:310 | closing or cancelling the dialog closes it and keeps its form and everything else |
| Dashboard.DashboardPage.EditChange | src/pages/Dashboard.js:151-153 | only the dialog's form changes |
| Dashboard.DashboardPage.SaveEdit | src/pages/Dashboard.js:156-176 | a missing title sends nothing and shows "更新失敗" with the error toast; a blank title sets "標題不可為空" and sends nothing; otherwise the trimmed PUT goes out, success merges the answer, closes the dialog and shows the success toast, and failure shows the server's message or "更新失敗" with the error toast |
| Dashboard.DashboardPage.DeleteTask | src/pages/Dashboard.js:179-191 | nothing without confirmation; otherwise success removes the task and shows the success toast, and failure shows the server's message or "刪除失敗" with the error toast |
| FakeServer.MaxId | src/_tests_/__mocks__/server.js:26 | `Math.max(0, ...ids)` is at least 0 and every id, and is 0 or one of the ids |
| FakeServer.FindById | src/_tests_/__mocks__/server.js:43 | `find` answers nothing exactly when no record has the id, else the first record with that id |
| FakeServer.FindUnique | src/_tests_/__mocks__/server.js:43 | with unique ids, `find` answers the one record with that id |
| FakeServer.NewTask | src/_tests_/__mocks__/server.js:26-33 | a new record gets an id above every id in the table, defaults "", "" and "todo" for missing fields, and the creation time |
| FakeServer.Updated | src/_tests_/__mocks__/server.js:40-42 | PUT keeps the length, merges the body into the records with the id, and a path that is not a number changes nothing |
| FakeServer.Removed | src/_tests_/__mocks__/server.js:49-50 | DELETE removes the records with the id, and a path that is not a number removes nothing |
| FakeServer.FindByPath | src/_tests_/__mocks__/server.js:43 | PUT answers the first record with the path's id, and nothing for a path that is not a number |
| FakeServer.Server.constructor | src/_tests_/__mocks__/server.js:6-11 | the table starts as the two seed tasks, with unique ids |
| FakeServer.Server.Reset | src/_tests_/__mocks__/server.js:13-15 | `resetDb` restores the two seed tasks, with unique ids |
| FakeServer.Server.List | src/_tests_/__mocks__/server.js:19-21 | GET answers the table |
| FakeServer.Server.Post | src/_tests_/__mocks__/server.js:24-36 | POST appends exactly the new record, whose id exceeds every existing id, and ids stay unique |
| FakeServer.Server.Put | src/_tests_/__mocks__/server.js:39-45 | PUT merges the body into the records with that id and answers the first one; ids stay unique when the body keeps the id |
| FakeServer.Server.Delete | src/_tests_/__mocks__/server.js:48-52 | DELETE removes exactly the records with the parsed id, keeps the rest in order and ids unique, and removes nothing for a path that is not a number |
| FakeServer.InitialTable | src/_tests_/__mocks__/server.js:6-9 | the seed ids are unique with maximum 2, so the first POST gets id 3 |
| FakeServer.PutAnswersMerged | src/_tests_/__mocks__/server.js:42-44 | PUT on an existing task answers that task merged with the body |
| FakeServer.PutMissing | src/_tests_/__mocks__/server.js:42-44 | PUT on an absent id changes nothing and answers nothing |
| FakeServer.ClientPutKeepsIdsUnique | src/pages/Dashboard.js:158-167 | the PUT the dashboard sends keeps the length and the uniqueness of the server's ids |
| FakeServer.PutCanDuplicateIds | src/_tests_/__mocks__/server.js:42 | a body carrying another task's id leaves two records with the same id |
| FakeServer.DeleteThenPostReusesId | src/_tests_/__mocks__/server.js:26 | after the task with the largest id is deleted, the next POST reuses that id |

## Left out

- Rendering, charts, layout, focus handling (`ref.focus()`) and accessibility ids are left out. They change no modelled state.
- `useTransition` and `useDeferredValue` are left out. The deferred search text is taken as equal to the typed text, which it becomes once React settles.
- Interleavings of overlapping requests are left out. Each handler runs to completion with one given `Outcome`, as on a single await; two submits in flight at once are not modelled.
- `console.error` logging is left out.
- `window.confirm` is the `confirmed` parameter of `DeleteTask`, because a dialog is I/O.
- `new Date()` is the `createdAt` parameter of `Post`, because a clock is I/O.
- Date parsing is the `dayKey` parameter. Its time-zone and calendar semantics belong to the JavaScript engine.
- The completion rate is computed in exact integers. Floating-point rounding in `completed / total * 100` is left out; it can differ from the exact value only at exact halves.
- JsString.ToLower: maps only ASCII letters. JavaScript's full Unicode case mapping is left out.
- JsString.Less: compares characters by code point, not by UTF-16 code unit. The two orders differ only between a character above U+FFFF and one in U+E000–U+FFFF, and dates contain neither.
- Lookups through the object prototype are left out. Examples are a status named "toString", which is `in` the counts object, and a filter named "constructor". The model looks only at own keys; for the three real statuses and labels the results are the same.
- Field names a reducer receives are any string. Only the form's own keys are read back, so a `change` to an unknown key is modelled as changing none of them.
- The dialog's `handleEditChange` is modelled for the three fields its inputs bind to: title, description and status.
- A `status` of `null` is not told apart from a missing one: both are `None` here. In the code the two differ, but only under a filter that is neither "全部" nor a label (`null === undefined` is false, so a `null` status is hidden there) and in the label shown (`null` instead of `undefined`).
- The text of the `TypeError` a `null` login body raises depends on the JavaScript engine. `NullBodyMessage` holds V8's wording.
- Task records carry strings for `title` and `status`. A title or status of another JSON type is left out.
- Records are the six keys the code reads; other keys a server may add are not represented.
- `URLSearchParams` holds at most one value per key here; duplicate keys are left out.
- The axios instance, its interceptors and the base URL are left out. `src/api.js` is not part of this model.
- The fake server's `ctx.delay` and status codes are left out. The answers are modelled as values.
- The GET handler is modelled only as answering the table.
