# todo-fe in Dafny

A model of the logic inside the todo-fe React front end: the todo list's
view state and handlers, the create/edit form's submit decision, the route
guards of the application shell, the shared HTTP client's interceptors, and
the dashboard's operating-system classifier and logout. Every server call is
replaced by its outcome, given as an input (`Outcome`, `FetchReply`,
`Reply`). Toasts, requests and navigation targets are returned as values
(`Notice`, `Request`, `Event`, redirect paths) so that contracts can speak
about them.

Files and modules:

- `text.dfy` (`Text`) holds the JavaScript string operations the code relies on: ASCII `toLowerCase`, `includes`, and decimal rendering of numbers in template strings.
- `todo_data.dfy` (`TodoData`) holds the values exchanged with the backend: todos, pagination, request bodies, notices, statuses and tags.
- `session.dfy` (`Session`) models `sessionStorage` as a class over a string map.
- `api.js` is modelled in `api.dfy` (`Api`).
- `App.jsx` is modelled in `routes.dfy` (`Routes`).
- `Dashboard.jsx` is modelled in `dashboard.dfy` (`Dashboard`).
- `CreateTodo.jsx` is modelled in `create_todo.dfy` (`CreateTodo`).
- `TodoList.jsx` is modelled in `todo_list.dfy` (`TodoList`).

Components that change state are classes whose fields are the component's
state hooks: `TodoList.TodoListView`, `CreateTodo.TodoForm`,
`Session.SessionStore` and `Api.RequestConfig`. Their handlers are methods
with `modifies` frames on the fields the handler sets and no others. Each handler
runs as one atomic step. The effect behind `fetchTodos` is the method
`Refresh`, and the environment calls it after the state it depends on
changes. Conditions that decide rendering are pure functions.

Choices made while modelling:

- React skips re-running an effect whose dependencies did not change. So a filter change resets the page only when the filter's value actually changed.
- The session user (`JSON.parse` of `userDetails`) is taken as given, as an `Option<User>`.
- `todo.tag[0]` of an empty list is JavaScript `undefined`. The model writes it as `None`.
- Router matching follows React Router's path matching: case-insensitive, with trailing slashes ignored.

## Model

| member | source | states |
|---|---|---|
| Text.ToLower | src/pages/Dashboard.jsx:27-28 | lower-casing keeps the length and maps each character on its own; only `A`-`Z` change |
| Text.ToLowerIdempotent | src/api.js:34 | lower-casing twice is lower-casing once |
| Text.Contains | src/pages/Dashboard.jsx:30-34 | `includes`; its contract is `ContainsIff` |
| Text.ContainsIff | src/pages/Dashboard.jsx:30-34 | `includes` holds exactly when the pattern occurs at some index |
| Text.ContainsLowered | src/api.js:34 | an occurrence survives lower-casing both strings |
| Text.NatToString | src/components/TodoList.jsx:51 | a number renders as a non-empty digit string with no leading zero |
| Text.DecimalRoundTrip | src/components/TodoList.jsx:51 | the rendered page number reads back as the same number |
| Text.IntToString | src/components/TodoList.jsx:51 | a number renders as a non-empty string starting with `-` exactly when it is negative |
| TodoData.StatusText | src/components/TodoList.jsx:391-393 | each status choice renders as one of `pending`, `in-progress`, `completed` |
| TodoData.StatusTextBijective | src/components/CreateTodo.jsx:150-170 | the status strings and the status choices correspond one to one |
| TodoData.TagText | src/components/CreateTodo.jsx:123-133 | each tag choice renders as `personal` or `work` |
| TodoData.TagTextBijective | src/components/CreateTodo.jsx:123-133 | the tag strings `personal`, `work` and the tag choices correspond one to one |
| Session.Lookup | src/App.jsx:17 | `getItem` gives the stored value exactly when the key is present, and null otherwise |
| Session.SessionStore.GetItem | src/App.jsx:17 | `getItem` gives the stored value exactly when the key is present, and null otherwise |
| Session.Truthy | src/App.jsx:20 | a stored value counts as present when it exists and is non-empty (JavaScript truthiness); no contract of its own |
| Session.TokenOf | src/App.jsx:17 | the stored `accessToken`, or null; no contract of its own, used by the route lemmas |
| Session.SessionStore.RemoveItem | src/pages/Dashboard.jsx:20-21 | removes exactly that key |
| Session.SessionStore.Clear | src/api.js:35 | empties the map |
| Api.WithBearer | src/api.js:14-22 | a truthy token adds `Authorization: Bearer <token>` and keeps every other header; otherwise the headers are unchanged |
| Api.DefaultContentTypeKept | src/api.js:8-10 | `Content-Type: application/json` survives the interceptor, with or without a token |
| Api.RequestConfig.constructor | src/api.js:8-10 | a new request starts with the default headers |
| Api.InterceptRequest | src/api.js:14-22 | the config is updated in place and returned; its new headers are `WithBearer` of the old ones and the stored token |
| Api.ErrorMessage | src/api.js:33 | the server's message when truthy, otherwise `Something went wrong!`; never empty |
| Api.SignalsExpiry | src/api.js:34 | the lower-cased message contains `expired`; its contract is `ExpiryIgnoresCase` and `ExpiredInAnyCase` |
| Api.ExpiryIgnoresCase | src/api.js:34 | the expiry test gives the same answer on a lower-cased message |
| Api.ExpiredInAnyCase | src/api.js:34 | a message containing `expired` in any mix of cases signals expiry |
| Api.OnRejected | src/api.js:32-42 | the rejection carries the derived message; on expiry the session is emptied, an error toast is raised and `/login` is scheduled after 2000 ms; otherwise the session is untouched and nothing else happens |
| Api.Settle | src/api.js:30-43 | a body resolves to itself and leaves the session alone; a failure always rejects with the derived message, never resolves, and on expiry empties the session, raises the error toast and schedules `/login` after 2000 ms, while otherwise the session is untouched and nothing else happens |
| Routes.ProtectedRoute | src/App.jsx:15-26 | redirects to `/login` exactly when the token is falsy; otherwise renders the child |
| Routes.RedirectIfLoggedIn | src/App.jsx:28-39 | redirects to `/dashboard` exactly when the token is truthy; otherwise renders the child |
| Routes.TrimTrailingSlashes | src/App.jsx:44-77 | the result is a prefix of the path that does not end in `/`, and every character removed is a `/` |
| Routes.Matches | src/App.jsx:46-71 | a path matches a pattern when, lower-cased and without trailing slashes, it equals it; no contract of its own, used by `RouteTable` and `CanonicalPathMatches` |
| Routes.Route | src/App.jsx:46-77 | the element the route table gives a path; every redirect goes to `/login` or `/dashboard` |
| Routes.RoutesDisjoint | src/App.jsx:46-71 | no path matches two route patterns |
| Routes.RouteTable | src/App.jsx:46-77 | `/login` and `/signup` go through `RedirectIfLoggedIn`, `/dashboard` through `ProtectedRoute`, anything else redirects to `/login` |
| Routes.CanonicalPathMatches | src/App.jsx:46-71 | a lower-case path without a trailing slash matches itself as a pattern |
| Routes.LiteralPathsMatch | src/App.jsx:47-65 | each route's own path matches its pattern |
| Routes.RouteTargets | src/App.jsx:21-34 | the guards' redirect targets are routed by the opposite guard |
| Routes.Navigate | src/App.jsx:15-77 | follows `<Navigate>` redirects up to a bound; its contract is `NoRedirectLoop` and `TwoRedirectsNeeded` |
| Routes.NoRedirectLoop | src/App.jsx:15-77 | from every path and token, at most two redirects reach a page: the dashboard with a token, the signup page on `/signup` without one, and the login page otherwise |
| Routes.TwoRedirectsNeeded | src/App.jsx:28-77 | with a token an unknown path needs both redirects; one is not enough |
| Routes.ClearedSessionIsLoggedOut | src/api.js:35 | after the session is cleared no path reaches the dashboard |
| Dashboard.OperatingSystem | src/pages/Dashboard.jsx:26-36 | the result is one of Windows, Mac OS, Linux, iOS, Android, Unknown |
| Dashboard.Classify | src/pages/Dashboard.jsx:30-35 | the rule chain always yields one of the six names |
| Dashboard.OsIsFirstMatch | src/pages/Dashboard.jsx:30-35 | the classifier is the first match over the ordered platform rules `win`, `mac`, `linux`, `iphone`, `ipad`, then `android` on the user agent, then Unknown |
| Dashboard.OsIgnoresCase | src/pages/Dashboard.jsx:27-28 | lower-casing either input first does not change the result |
| Dashboard.PlatformTakesPrecedence | src/pages/Dashboard.jsx:30-34 | when a platform rule matches, the user agent has no influence and the result is neither Android nor Unknown |
| Dashboard.AndroidAndUnknownCases | src/pages/Dashboard.jsx:34-35 | Android exactly when no platform rule matches and the user agent mentions android; Unknown exactly when nothing matches |
| Dashboard.HandleLogout | src/pages/Dashboard.jsx:19-24 | removes `accessToken` and `userDetails`, raises the info toast and navigates to `/login` |
| Dashboard.LogoutKeepsOtherKeys | src/pages/Dashboard.jsx:19-21 | every other session key keeps its value, and exactly the two keys disappear |
| Dashboard.LogoutLocksDashboard | src/pages/Dashboard.jsx:19-23 | after logout no token is stored and `/dashboard` redirects to `/login` |
| Dashboard.LoggedOut | src/pages/Dashboard.jsx:20-21 | the session with the two keys removed; its contract is `LogoutKeepsOtherKeys` |
| CreateTodo.First | src/components/CreateTodo.jsx:18-19 | `list[0]`: the first element, or undefined for an empty list |
| CreateTodo.FromTodo | src/components/CreateTodo.jsx:14-20 | edit mode, title and description copied, tag and status set to the todo's first tag and first status |
| CreateTodo.ChoicesValidAtStart | src/components/CreateTodo.jsx:6-21 | the initial form's choices are valid values; a loaded todo's are valid exactly when its first tag and first status are |
| CreateTodo.Payload | src/components/CreateTodo.jsx:32-38 | the submit body is the todo payload |
| CreateTodo.SubmitRequestShape | src/components/CreateTodo.jsx:32-49 | the payload carries the user id, title and description, with single-element tag and status lists; edit mode sends PUT `/todo/update/<id>`, otherwise POST `/todo/create` |
| CreateTodo.NoUserSendsNothing | src/components/CreateTodo.jsx:26-30 | without a session user, no request goes out and nothing closes |
| CreateTodo.SubmitClosesOnlyOnSuccess | src/components/CreateTodo.jsx:40-55 | with a user, exactly one request goes out; `closeModal` runs once on success and never on failure, where the error toast is raised |
| CreateTodo.TodoForm.constructor | src/components/CreateTodo.jsx:6-11 | empty title and description, tag `personal`, status `pending`, no error, not in edit mode |
| CreateTodo.TodoForm.LoadTodoToEdit | src/components/CreateTodo.jsx:13-21 | with a todo, the fields become `FromTodo` of it; without one, nothing changes |
| CreateTodo.TodoForm.SetTitle | src/components/CreateTodo.jsx:6 | sets the title |
| CreateTodo.TodoForm.SetDescription | src/components/CreateTodo.jsx:7 | sets the description |
| CreateTodo.TodoForm.ChooseTag | src/components/CreateTodo.jsx:123-133 | the tag becomes `personal` or `work`; valid choices stay valid |
| CreateTodo.TodoForm.ChooseStatus | src/components/CreateTodo.jsx:150-170 | the status becomes `pending`, `in-progress` or `completed`; valid choices stay valid |
| CreateTodo.TodoForm.Submit | src/components/CreateTodo.jsx:23-56 | without a user, sets the error `No user found. Please login.` and sends nothing; otherwise the events are the request, the toast and, only on success, the close |
| CreateTodo.RequiredFilled | src/components/CreateTodo.jsx:84-110 | the title and the description are non-empty; no contract of its own, used by `PressSubmit` |
| CreateTodo.TodoForm.PressSubmit | src/components/CreateTodo.jsx:90-108 | an empty required field blocks the submit and changes nothing; otherwise the submit runs, with its events and its no-user error |
| CreateTodo.SubmitRequest | src/components/CreateTodo.jsx:41-49 | PUT `/todo/update/<id>` in edit mode, POST `/todo/create` otherwise; its contract is `SubmitRequestShape` |
| CreateTodo.SubmitEvents | src/components/CreateTodo.jsx:23-56 | what `handleSubmit` does, as events; its contract is `NoUserSendsNothing` and `SubmitClosesOnlyOnSuccess` |
| TodoList.StatusFilterValue | src/components/TodoList.jsx:242-245 | the status filter holds `''` (all) or a status string |
| TodoList.TagFilterValue | src/components/TodoList.jsx:262-264 | the tag filter holds `''` (all), `perosnal` or `work` |
| TodoList.PersonalFilterMissesPersonalTag | src/components/TodoList.jsx:263 | the Personal filter value is not a tag the form ever writes, while the Work value is |
| TodoList.UserIdText | src/components/TodoList.jsx:51 | the user's id, or `undefined` without a user |
| TodoList.FetchPath | src/components/TodoList.jsx:51 | the fetch query; its contract is `FetchPathEncodesPage` |
| TodoList.FetchPathEncodesPage | src/components/TodoList.jsx:51 | the query ends in `count=4&offset=<page>` and the offset reads back as the page |
| TodoList.AnyFilter | src/components/TodoList.jsx:270-271 | some filter is set; no contract of its own, used by `ScreenOrder` |
| TodoList.ErrorShown | src/components/TodoList.jsx:176 | `if (error)`: a non-empty message is set; no contract of its own, used by `ScreenOrder` and `FailedFetchShowsError` |
| TodoList.ScreenOf | src/components/TodoList.jsx:170-296 | the screen rendered; its contract is `ScreenOrder` |
| TodoList.ScreenOrder | src/components/TodoList.jsx:170-296 | loader while loading, then a truthy error, then the filtered-empty view, then the no-todos view, otherwise the table, each with exactly its condition |
| TodoList.FailedFetchShowsError | src/components/TodoList.jsx:58-61 | a failed fetch always shows the error screen, because the client's message is never empty |
| TodoList.Ids | src/components/TodoList.jsx:311 | the displayed todos' ids, in display order |
| TodoList.HeaderChecked | src/components/TodoList.jsx:315-318 | the header's `checked`; its contract is `HeaderSelectionSpec` and `HeaderCheckedByLengthOnly` |
| TodoList.HeaderSelection | src/components/TodoList.jsx:308-314 | the header's `onChange`; its contract is `HeaderSelectionSpec` |
| TodoList.HeaderSelectionSpec | src/components/TodoList.jsx:308-318 | checking selects exactly the displayed ids in order and then shows checked if any row exists; unchecking empties the selection |
| TodoList.HeaderCheckedByLengthOnly | src/components/TodoList.jsx:315-318 | the header shows checked for any selection of the right length, even one with ids not displayed |
| TodoList.Without | src/components/TodoList.jsx:139 | the id is gone, every other id is kept, and the list does not grow |
| TodoList.WithoutConcat | src/components/TodoList.jsx:139 | filtering distributes over concatenation, so kept ids stay in order |
| TodoList.WithoutMultiset | src/components/TodoList.jsx:139 | filtering removes every occurrence of the id and keeps every other id as many times |
| TodoList.WithoutOnce | src/components/TodoList.jsx:139 | in a duplicate-free list, filtering a present id shortens it by one |
| TodoList.Toggled | src/components/TodoList.jsx:136-141 | the toggled id's membership flips and every other id keeps its membership |
| TodoList.ToggleSpec | src/components/TodoList.jsx:136-141 | an absent id is appended at the end; a present id is removed everywhere, with the others kept in order |
| TodoList.ToggleTwice | src/components/TodoList.jsx:136-141 | toggling twice keeps the set of ids; it restores the list when the id was absent, and its contents when the selection had no duplicates |
| TodoList.ToggleKeepsNoDuplicates | src/components/TodoList.jsx:136-141 | a duplicate-free selection stays duplicate-free |
| TodoList.MultisetOfDistinct | src/components/TodoList.jsx:136-141 | in a duplicate-free selection every id occurs at most once |
| TodoList.TwoPositionsCount | src/components/TodoList.jsx:136-141 | an id at two positions occurs at least twice |
| TodoList.ToggleAfterSelectAll | src/components/TodoList.jsx:136-141 | after select-all over distinct ids, toggling one row leaves one fewer id and unchecks the header |
| TodoList.PreviousDisabled | src/components/TodoList.jsx:457 | Previous is disabled on page 1; its contract is `EnabledButtonsStayInRange` |
| TodoList.NextDisabled | src/components/TodoList.jsx:464-466 | Next is disabled on the last page or with no todos; its contract is `EnabledButtonsStayInRange`, `NextEnabledPastLastPage` and `NextEmptyTestIsDead` |
| TodoList.EnabledButtonsStayInRange | src/components/TodoList.jsx:455-466 | from a page in range, enabled Previous and Next lead to a page in range |
| TodoList.NextEnabledPastLastPage | src/components/TodoList.jsx:464-466 | Next compares for equality only, so past the last page it stays enabled |
| TodoList.NextEmptyTestIsDead | src/components/TodoList.jsx:464-466 | where the buttons are rendered, Next is disabled exactly on the last page |
| TodoList.TodoListView.constructor | src/components/TodoList.jsx:27-46 | the initial state: no todos, loading, no error, modal closed, empty selection, page 1, zero pagination, no filters |
| TodoList.BulkActionsShown | src/components/TodoList.jsx:185 | the bulk toolbar replaces the Create button while anything is selected; the bulk handlers ensure it is gone after success |
| TodoList.FetchNotice | src/components/TodoList.jsx:58-61 | a failed fetch raises its message as an error toast; a successful one raises none |
| TodoList.AfterChange | src/components/TodoList.jsx:89-134 | after a successful change, its success toast comes first and the refetch's error toast, if any, second |
| TodoList.TodoListView.FetchRequest | src/components/TodoList.jsx:49-52 | the GET `fetchTodos` sends from the current user, filters and page; no contract of its own, used by every refetching handler |
| TodoList.TodoListView.AppliedFetch | src/components/TodoList.jsx:53-62 | a reply replaces todos and pagination and keeps the error, a failure sets the error and keeps both; loading ends either way; no contract of its own, used by every refetching handler |
| TodoList.TodoListView.FetchTodos | src/components/TodoList.jsx:48-63 | the request is GET of the query built from the user, the filters and the page; a reply sets todos and pagination, a failure sets the error and raises its toast; loading ends either way |
| TodoList.TodoListView.Refresh | src/components/TodoList.jsx:65-72 | without a user, sets the no-user error and stops loading without a request or toast; otherwise fetches, with the fetch's toast |
| TodoList.TodoListView.OpenForCreate | src/components/TodoList.jsx:74-77 | opens the modal with no todo to edit |
| TodoList.TodoListView.OpenForEdit | src/components/TodoList.jsx:79-82 | opens the modal on that todo |
| TodoList.TodoListView.CloseModal | src/components/TodoList.jsx:84-87 | closes the modal and refetches, with the fetch's toast |
| TodoList.TodoListView.DeleteTodo | src/components/TodoList.jsx:89-97 | deletes by id and refetches on success, raising the success toast and then the refetch's error toast if it fails; on failure the fetched state is unchanged and the error toast is raised; the selection and page never change |
| TodoList.TodoListView.MassDelete | src/components/TodoList.jsx:99-110 | sends the whole selection; on success the selection is emptied, the list refetched and the success toast raised, followed by the refetch's error toast if it fails; on failure nothing changes and the error toast is raised |
| TodoList.TodoListView.StatusChange | src/components/TodoList.jsx:112-120 | PATCHes a single-element status list; on success refetches with the success toast, then the refetch's error toast if it fails; on failure nothing changes and the error toast is raised; the selection is never touched |
| TodoList.TodoListView.MassStatusUpdate | src/components/TodoList.jsx:122-134 | PUTs the selection with a single-element status list; on success the selection is emptied, the list refetched and the success toast raised, then the refetch's error toast if it fails; on failure nothing changes and the error toast is raised |
| TodoList.TodoListView.ToggleSelect | src/components/TodoList.jsx:136-141 | the selection becomes `Toggled` of the old one |
| TodoList.TodoListView.HeaderCheckboxChange | src/components/TodoList.jsx:308-318 | the selection becomes all displayed ids, or empty; the header then shows checked exactly when it was checked with rows displayed |
| TodoList.TodoListView.ChangeStatusFilter | src/components/TodoList.jsx:150-152 | sets the status filter; a changed value resets the page to 1 |
| TodoList.TodoListView.ChangeTagFilter | src/components/TodoList.jsx:150-152 | sets the tag filter; a changed value resets the page to 1 |
| TodoList.TodoListView.ClearFilters | src/components/TodoList.jsx:280-283 | both filters become `''`; the page goes to 1 if any filter was set |
| TodoList.TodoListView.Paginate | src/components/TodoList.jsx:159 | the page becomes exactly `n` |
| TodoList.TodoListView.ClickPrevious | src/components/TodoList.jsx:455-457 | goes back a page unless on page 1 |
| TodoList.TodoListView.ClickNext | src/components/TodoList.jsx:462-466 | goes forward a page unless on the last page or with no todos shown |
| TodoList.ClearFiltersScenario | src/components/TodoList.jsx:270-296 | filtering an empty list shows the filtered-empty view; Clear Filters refetches page 1 unfiltered and shows the no-todos view |

## Left out

- Network I/O is not modelled: axios, `fetch`, the base URL and JSON decoding of responses. Each call's result is an input to the method that issues it.
- Toasts, `navigate`, `setTimeout` and `window.location.replace` are not performed. They are returned as notices, targets and a scheduled redirect (path and delay).
- Effects do not run automatically. In particular, a filter change made off page 1 fetches twice in the program: first with the new filter and the old page, then with page 1 (on page 1 the reset changes nothing and the fetch effect runs once). Responses that arrive out of order are a concurrency matter and are not modelled. Each handler is one atomic transition, and `Refresh` is the fetch effect, invoked explicitly.
- The failure branch of the single status change calls `toast.err`, which the toast library does not provide. It is modelled as the intended error notice with the state unchanged.
- Text.ToLower: only ASCII letters are lower-cased; full Unicode case mapping is not modelled.
- Routes.Matches: React Router's percent-decoding and its other pattern syntax are not modelled; only the literal patterns this table uses are compared, case-insensitively and without trailing slashes.
- Api.ErrorMessage: a non-string `message` field in an error response is not modelled; the message is an optional string.
- `JSON.parse` of the stored user record is taken as given, as an `Option<User>`. A malformed record is not modelled.
- Dates (`toLocaleDateString`), the randomly chosen loader, the unused `indexOfFirstTodo`/`indexOfLastTodo`, the commented-out summary and the identity `filteredTodos` memo are rendering details.
- The page label `Page : x/y` is rendering and is not modelled.
- Battery status on the dashboard uses floating point, DOM updates and event listeners, and is not modelled.
- The handlers' `outcome` stands for the whole failed call, so their contracts leave out what the response interceptor does on an expired token (`Api.OnRejected`): the session clear, its own error toast, which precedes the handler's toast, and the redirect to `/login`.
- TodoList.TodoListView.user and CreateTodo.TodoForm.Submit's `user`: the user is fixed for the life of each component instance (or given per call), while the program re-reads `userDetails` on every render. After the session is cleared the program's next fetch effect takes the no-user branch and `closeModal` fetches with `undefined`; the model keeps the user it was built with.
- Login, SignUp and Modal are not part of this model: they are request plumbing and markup.
