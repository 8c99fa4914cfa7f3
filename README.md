# Admin dashboard core, modelled in Dafny

This project models the decision logic of a client-side admin dashboard for employees and
divisions. The dashboard talks to a REST backend and keeps its session in browser storage.
Everything here is deterministic once the backend's replies and the browser's answers are
given as inputs. The model covers:

- **Pagination** (`pagination.dfy`). The sliding window of at most five page numbers
  around the current page, computed by a method with reassigned bounds and a loop. Beside
  it sit the first/last shortcuts, the ellipses, the Previous/Next buttons and the
  `page` address update. Lemmas show that the window stays inside `[1, totalPages]`, holds
  `min(5, totalPages)` pages, contains a valid current page and is centred away from the
  ends. They also show that each shortcut and ellipsis appears exactly when the window
  hides its pages, and that every page is shown, is a shortcut target or sits behind an
  ellipsis.
- **List pages** (`listing.dfy`, `employees_page.dfy`, `divisions_page.dfy`). Reading
  `page` from the address, the ordered fetch query, the ceiling page count, how a list
  reply is taken in, and the search and division-filter address updates, which always
  return to page 1. A lemma shows that a page chosen in the navigator is the page the list
  reads back (`parseInt(String(p)) == p`, `decimal.dfy`).
- **Session** (`auth.dfy`, `http_client.dfy`, `browser.dfy`). A `Window` object stands
  for the browser globals (`localStorage` as a map, the address navigated to, the root
  element's classes and the dark-scheme preference). All components share it. The HTTP
  client adds a bearer header when a token is stored. On a 401 it removes `token` and
  `user` and goes to `/login`, and it rejects every error again unchanged. The auth
  context restores, logs in (first complete token/user pair of `admin`, `data`, top
  level), logs out (always ends the session) and refreshes the profile (user from
  `data.user`, `user`, `admin.user`). Two client methods show that logging in and then
  reloading restores the same user, and that a 401 followed by a reload finds no session.
- **Forms** (`profile.dfy`, `employee_modal.dfy`, `division_modal.dfy`). The profile
  password check, its payload, the user-sync updater and Reset. The employee dialog's
  prefill/reset, field updates, multipart assembly (`_method=PUT` when editing) and save
  outcome. The division dialog, modelled on values, with its PUT/POST choice.
- **Theme** (`theme.dfy`). The saved choice, its resolution against the system
  preference, one theme class on the root element, saving on toggle, and re-applying on a
  preference change only while the choice is `system`.

Replies are `Http.Reply<T>`: `Ok(body)` or `Err(HttpError)`, where an error carries its
status, `response.data.message` and its own `message`. Missing JSON fields are `None`. JSON
text crosses storage through `Auth.Codec`, a pair of total functions. `JSON.parse` failure
is `decode` returning `None`. The interceptor's `window.location.href` and logout's
`router.push('/login')` write `Window.location`. The query-only pushes of the navigator
and the list pages become the list page's `query` map.

Three behaviours of the code worth noting:

- Search terms go into the address as `search`, but the fetch reads its search term from
  page state, never from the address.
- The division filter writes `division` even when it is empty.
- Prefilling the division dialog keeps any error shown earlier; only the reset clears it.

## Model

| member | source | states |
|---|---|---|
| `Pagination.Range` | src/components/Pagination.jsx:24-26 | the run from `lo` to `hi` is ascending and contiguous, has `hi - lo + 1` entries, and is empty when `hi < lo` |
| `Pagination.InRange` | src/components/Pagination.jsx:24-26 | a number is in the run exactly when it lies between its ends |
| `Pagination.Window` | src/components/Pagination.jsx:15-22 | the adjusted bounds start at 1 or later, end at `totalPages` or earlier, and span at most five pages |
| `Pagination.ComputeWindow` | src/components/Pagination.jsx:15-26 | the loop collects exactly `Range(startPage, endPage)`; `endPage` is `min(totalPages, max(1, currentPage - 2) + 4)` and is not moved by the adjustment |
| `Pagination.WindowWithinPages` | src/components/Pagination.jsx:16-26 | for any current page, every shown page is in `[1, totalPages]` and at most five are shown |
| `Pagination.WindowLength` | src/components/Pagination.jsx:16-26 | with at least one page the window has `min(5, totalPages)` entries, whatever the current page; with none it is empty |
| `Pagination.WindowShowsCurrent` | src/components/Pagination.jsx:16-26 | a current page in `[1, totalPages]` lies inside the window |
| `Pagination.WindowCentred` | src/components/Pagination.jsx:16-26 | away from both ends the window is the current page and two neighbours on each side |
| `Pagination.WindowAtEnd` | src/components/Pagination.jsx:17-22 | near or past the last page the window is the last `min(5, totalPages)` pages |
| `Pagination.WindowAtStart` | src/components/Pagination.jsx:17-22 | near or before page 1 the window is the first `min(5, totalPages)` pages |
| `Pagination.Render` | src/components/Pagination.jsx:28-84 | nothing is rendered iff `totalPages <= 1`; otherwise the window is shown, Previous is disabled iff on page 1 and leads to the page before, Next is disabled iff on the last page and leads to the page after |
| `Pagination.ShortcutsComplementWindow` | src/components/Pagination.jsx:40-76 | the first/last shortcut appears iff its page is not in the window; each ellipsis appears iff its shortcut does and the neighbouring page is hidden too |
| `Pagination.EveryPageAccountedFor` | src/components/Pagination.jsx:40-76 | every page is in the window, is a shortcut target, or lies behind an ellipsis |
| `Pagination.StepsStayInRange` | src/components/Pagination.jsx:32-84 | for a valid current page the target of an enabled Previous or Next is a real page, one step from the current one |
| `Pagination.UpdatePage` | src/components/Pagination.jsx:9-13 | only `page` changes, to the decimal text of the target; all other parameters are kept |
| `Decimal.IntToString` | src/components/Pagination.jsx:11 | the decimal text of an integer is an integer literal without a `+` sign |
| `Decimal.ParseIntOfIntToString` | src/app/dashboard/employees/page.jsx:22 | reading back the decimal text of an integer yields that integer |
| `Listing.CurrentPage` | src/app/dashboard/employees/page.jsx:22 | an absent or empty `page` parameter reads as page 1 |
| `Listing.CurrentPageAfterUpdate` | src/app/dashboard/employees/page.jsx:22 | after the navigator sets page `p`, the list reads page `p` back |
| `Listing.TotalPages` | src/app/dashboard/employees/page.jsx:37 | the page count is the ceiling of `total / 10`, a missing total counting as 0 |
| `Listing.Received` | src/app/dashboard/employees/page.jsx:35-42 | a failed request or a body without `data` leaves the list as it was; otherwise the rows (missing rows as `[]`) and the ceiling page count are taken |
| `Listing.LookupAppend` | src/app/dashboard/employees/page.jsx:28-33 | in joined query parts the first part's value for a key wins |
| `Listing.SearchQuery` | src/app/dashboard/employees/page.jsx:62-72 | `page` becomes "1"; `search` is set to a non-empty term and removed for an empty one; nothing else changes |
| `Listing.SearchRestartsAtFirstPage` | src/app/dashboard/employees/page.jsx:62-72 | after a search the list reads page 1 |
| `EmployeesPage.FetchQuery` | src/app/dashboard/employees/page.jsx:28-33 | the query starts with `page` and `per_page=10`; `name` is present iff the term is non-empty and `division_id` iff the division is non-empty |
| `EmployeesPage.DivisionFilterQuery` | src/app/dashboard/employees/page.jsx:74-80 | `page` becomes "1" and `division` the choice, even when empty; nothing is removed and nothing else changes |
| `EmployeesPage.FilterRestartsAtFirstPage` | src/app/dashboard/employees/page.jsx:74-80 | after a division choice the list reads page 1 |
| `EmployeesPage.EmployeesPage.constructor` | src/app/dashboard/employees/page.jsx:10-17 | the page starts with an empty list, loading, the dialog closed, no filter and no pages |
| `EmployeesPage.EmployeesPage.Fetch` | src/app/dashboard/employees/page.jsx:25-43 | sends the query for the current page and filters; the list and page count follow `Listing.Received`; loading ends false; the 401 effect of the client applies |
| `EmployeesPage.EmployeesPage.SetSearchTerm` | src/app/dashboard/employees/page.jsx:136 | typing sets the search term |
| `EmployeesPage.EmployeesPage.HandleSearch` | src/app/dashboard/employees/page.jsx:62-72 | the address becomes `SearchQuery` of the old address and the term |
| `EmployeesPage.EmployeesPage.HandleDivisionFilter` | src/app/dashboard/employees/page.jsx:74-80 | the chosen division is kept for the fetch and the address becomes `DivisionFilterQuery` |
| `EmployeesPage.EmployeesPage.HandleAdd` | src/app/dashboard/employees/page.jsx:121 | the dialog opens |
| `EmployeesPage.EmployeesPage.HandleEdit` | src/app/dashboard/employees/page.jsx:82-85 | the dialog opens with the chosen employee |
| `EmployeesPage.EmployeesPage.HandleModalClose` | src/app/dashboard/employees/page.jsx:99-102 | the dialog closes and the selection is cleared |
| `EmployeesPage.EmployeesPage.HandleSubmitSuccess` | src/app/dashboard/employees/page.jsx:104-107 | the dialog closes and the list is fetched again, with `Fetch`'s effect on the list, the page count, storage and address |
| `DivisionsPage.FetchQuery` | src/app/dashboard/divisions/page.jsx:20-30 | the query starts with `page` and `per_page=10`; `name` is present iff the term is non-empty |
| `DivisionsPage.DivisionsPage.constructor` | src/app/dashboard/divisions/page.jsx:10-15 | the page starts with an empty list, loading, the dialog closed and no pages |
| `DivisionsPage.DivisionsPage.Fetch` | src/app/dashboard/divisions/page.jsx:23-40 | sends the query for the current page and term; the list and page count follow `Listing.Received`; loading ends false; the 401 effect of the client applies |
| `DivisionsPage.DivisionsPage.SetSearchTerm` | src/app/dashboard/divisions/page.jsx:108 | typing sets the search term |
| `DivisionsPage.DivisionsPage.HandleSearch` | src/app/dashboard/divisions/page.jsx:46-56 | the address becomes `SearchQuery` of the old address and the term |
| `DivisionsPage.DivisionsPage.HandleAdd` | src/app/dashboard/divisions/page.jsx:94 | the dialog opens |
| `DivisionsPage.DivisionsPage.HandleEdit` | src/app/dashboard/divisions/page.jsx:58-61 | the dialog opens with the chosen division |
| `DivisionsPage.DivisionsPage.HandleModalClose` | src/app/dashboard/divisions/page.jsx:75-78 | the dialog closes and the selection is cleared |
| `DivisionsPage.DivisionsPage.HandleSubmitSuccess` | src/app/dashboard/divisions/page.jsx:80-83 | the dialog closes and the list is fetched again, with `Fetch`'s effect on the list, the page count, storage and address |
| `Http.BaseUrl` | src/lib/axios.js:3 | the configured address when set and non-empty, else `http://127.0.0.1:8000/api`; never empty |
| `Http.StorageAfter` | src/lib/axios.js:33-38 | a 401 removes exactly `token` and `user`; any other error, or none, leaves storage as it was |
| `Http.LocationAfter` | src/lib/axios.js:33-38 | a 401 sends the browser to `/login`; otherwise the address is kept |
| `Http.SaveError` | src/app/dashboard/employees/components/EmployeeModal.jsx:90-99 | a save succeeds iff the body's status is "success"; a refused save shows the body's non-empty message or "Operation failed"; a failed request shows its non-empty response message or "Operation failed"; a reply without a body shows "Operation failed"; the message is never empty |
| `Http.ApiClient.constructor` | src/lib/axios.js:3-11 | the client uses `BaseUrl` and JSON content-type and accept headers |
| `Http.ApiClient.InterceptRequest` | src/lib/axios.js:14-23 | with a non-empty stored token the same config gets `Authorization: Bearer <token>`; without one it is passed on unchanged |
| `Http.ApiClient.InterceptResponseError` | src/lib/axios.js:30-42 | the error is rejected again unchanged; storage and address change as `StorageAfter` and `LocationAfter` say |
| `Http.ApiClient.Receive` | src/lib/axios.js:30-42 | a success passes through untouched; an error runs the error path first |
| `Auth.SelectCredentials` | src/context/AuthContext.jsx:46-59 | a pair is found iff one of `admin`, `data`, top level is complete, and then it is the first complete one in that order, with a non-empty token |
| `Auth.LoginOutcome` | src/context/AuthContext.jsx:40-84 | success iff the status is "success" and a complete pair exists; otherwise the message is the payload's, or "Unexpected login response", or "Login failed", as the case demands, never empty |
| `Auth.SelectUpdatedUser` | src/context/AuthContext.jsx:107-114 | a user is found iff one of `data.user`, `user`, `admin.user` exists, taken in that order |
| `Auth.UpdateError` | src/context/AuthContext.jsx:99-135 | the failing request is the update, or `/me` once the update was accepted |
| `Auth.UpdateOutcome` | src/context/AuthContext.jsx:99-135 | success iff the update is accepted and `/me` yields a user; a missing user fails with "Failed to get updated user data"; a refused update fails with its message; an update reply without a body fails with "Update failed"; a failed request fails with its response message or "Update failed" |
| `Auth.RestoreFrom` | src/context/AuthContext.jsx:19-35 | a session is present iff a non-empty token and a user text other than "", "undefined" and "null" are stored; it is restored iff that text parses |
| `Auth.AuthProvider.constructor` | src/context/AuthContext.jsx:12-13 | no user, loading |
| `Auth.AuthProvider.Initialize` | src/context/AuthContext.jsx:19-35 | restores the parsed user; an unparsable session removes `token` and `user`; loading always ends false |
| `Auth.AuthProvider.Login` | src/context/AuthContext.jsx:40-84 | returns `LoginOutcome`; on success stores the token and the written user and signs the user in; on failure storage changes only by the client's 401 effect and the user is kept |
| `Auth.AuthProvider.Logout` | src/context/AuthContext.jsx:86-97 | whether or not the call failed, `token` and `user` are removed, the user is signed out and the address is `/login` |
| `Auth.AuthProvider.UpdateProfile` | src/context/AuthContext.jsx:99-135 | returns `UpdateOutcome`; on success only `user` is rewritten, the token is kept and the user is replaced; on failure only the client's 401 effect applies |
| `Auth.LoginThenReload` | src/context/AuthContext.jsx:18-84 | with a codec that reads back what it writes, a successful login followed by a reload restores the same user |
| `Auth.UnauthorizedThenReload` | src/lib/axios.js:30-42 | after a 401 the session keys are gone, the address is `/login`, and a reload restores no user |
| `Profile.SyncWithUser` | src/app/dashboard/profile/page.jsx:23-38 | the result shows the user's name, username and email (missing as ""), keeps both password fields, and is the prior form when that already showed them |
| `Profile.WithField` | src/app/dashboard/profile/page.jsx:45-48 | the named input takes the value; every other input is unchanged |
| `Profile.ProfilePayload` | src/app/dashboard/profile/page.jsx:61-66 | the keys are name, username and email, plus password iff one was typed; confirmPassword is never sent |
| `Profile.ClearPasswords` | src/app/dashboard/profile/page.jsx:191-197 | both password fields are emptied and the account fields kept |
| `Profile.ProfilePage.constructor` | src/app/dashboard/profile/page.jsx:9-17 | empty form, not loading, empty message |
| `Profile.ProfilePage.SyncUser` | src/app/dashboard/profile/page.jsx:20-43 | with a user the form becomes `SyncWithUser`; without one it is kept |
| `Profile.ProfilePage.HandleChange` | src/app/dashboard/profile/page.jsx:45-48 | the form becomes `WithField` of the old form |
| `Profile.ProfilePage.HandleSubmit` | src/app/dashboard/profile/page.jsx:50-78 | a non-empty password its confirmation does not repeat gives "Passwords do not match", sends nothing and touches no session state; otherwise `ProfilePayload` is sent; success clears only the passwords, shows the success text and rewrites only the stored `user`; failure shows the outcome's message and storage and address change only by the client's 401 effect; loading ends false |
| `Profile.ProfilePage.Reset` | src/app/dashboard/profile/page.jsx:191-197 | only the two password fields are cleared |
| `EmployeeModal.PrefillForm` | src/app/dashboard/employees/components/EmployeeModal.jsx:20-28 | name, phone and position come from the employee or "", the division from `division.id` or "", and no image is chosen |
| `EmployeeModal.WithField` | src/app/dashboard/employees/components/EmployeeModal.jsx:46-49 | the named input takes the value; the other inputs and the image are unchanged |
| `EmployeeModal.MultipartBody` | src/app/dashboard/employees/components/EmployeeModal.jsx:69-80 | name, phone, division and position come first in that order; `image` is present iff one is chosen; `_method=PUT` is present iff editing, and last |
| `EmployeeModal.SubmitUrl` | src/app/dashboard/employees/components/EmployeeModal.jsx:79-88 | edits go to `/employees/<id>`, new employees to `/employees` |
| `EmployeeModal.EmployeeModal.constructor` | src/app/dashboard/employees/components/EmployeeModal.jsx:8-17 | empty form, no preview, not loading, no error |
| `EmployeeModal.EmployeeModal.SyncEmployee` | src/app/dashboard/employees/components/EmployeeModal.jsx:19-32 | with an employee the form is prefilled and the preview is its image or ""; without one the form, preview and error are reset |
| `EmployeeModal.EmployeeModal.ResetForm` | src/app/dashboard/employees/components/EmployeeModal.jsx:34-44 | empty fields, no image, no preview, no error |
| `EmployeeModal.EmployeeModal.HandleChange` | src/app/dashboard/employees/components/EmployeeModal.jsx:46-49 | the form becomes `WithField` of the old form |
| `EmployeeModal.EmployeeModal.HandleFileChange` | src/app/dashboard/employees/components/EmployeeModal.jsx:51-61 | a picked file becomes the image; no file changes nothing |
| `EmployeeModal.EmployeeModal.HandleSubmit` | src/app/dashboard/employees/components/EmployeeModal.jsx:63-100 | the appended body equals `MultipartBody` and goes to `SubmitUrl`; success is reported iff `SaveError` finds none, otherwise its message is shown; loading ends false |
| `DivisionModal.SyncDivision` | src/app/dashboard/divisions/components/DivisionModal.jsx:13-28 | with a division the name is prefilled (or "") and the error kept; without one the name and error are cleared |
| `DivisionModal.ResetRestoresInitial` | src/app/dashboard/divisions/components/DivisionModal.jsx:7-28 | with no save in flight, the reset on no division returns the dialog to its initial state |
| `DivisionModal.HandleChange` | src/app/dashboard/divisions/components/DivisionModal.jsx:30-33 | only the name changes |
| `DivisionModal.SubmitRequest` | src/app/dashboard/divisions/components/DivisionModal.jsx:41-50 | editing sends PUT to `/divisions/<id>`, creating POST to `/divisions`; the body is only the name |
| `DivisionModal.HandleSubmit` | src/app/dashboard/divisions/components/DivisionModal.jsx:35-62 | sends `SubmitRequest`; success is reported iff `SaveError` finds none, otherwise its message is shown; the form is kept and loading ends false; a 401 removes `token` and `user` and sends the browser to `/login`, any other reply leaves storage and address alone |
| `DivisionModal.SaveUnchangedKeepsName` | src/app/dashboard/divisions/components/DivisionModal.jsx:13-50 | opening a division and saving untouched writes back its current name with PUT |
| `Theme.SavedTheme` | src/context/ThemeContext.jsx:22 | the saved non-empty choice, otherwise "system" |
| `Theme.Resolve` | src/context/ThemeContext.jsx:29-33 | "system" resolves to the preference (dark or light); any other choice to itself; menu choices always resolve to light or dark |
| `Theme.WithThemeClass` | src/context/ThemeContext.jsx:35-37 | the applied theme is on the root, the other of light/dark is not, and every other class is untouched |
| `Theme.OneThemeClass` | src/context/ThemeContext.jsx:27-38 | for a menu choice exactly one of light and dark ends up on the root, the resolved one |
| `Theme.ThemeProvider.constructor` | src/context/ThemeContext.jsx:16-17 | the choice starts as "system", not mounted |
| `Theme.ThemeProvider.ApplyTheme` | src/context/ThemeContext.jsx:27-38 | the root classes become `WithThemeClass` of the old classes and the resolved theme |
| `Theme.ThemeProvider.Mount` | src/context/ThemeContext.jsx:19-25 | marks mounted, takes `SavedTheme` as the choice and applies it |
| `Theme.ThemeProvider.ToggleTheme` | src/context/ThemeContext.jsx:40-44 | sets the choice, stores it under `theme`, and applies it |
| `Theme.ThemeProvider.SystemPreferenceChanged` | src/context/ThemeContext.jsx:47-60 | a preference change re-applies the class only while the choice is "system" |
| `Theme.ThemeProvider.Provided` | src/context/ThemeContext.jsx:62-70 | children receive nothing until mounted, then the current choice |
| `Theme.ToggleThenReload` | src/context/ThemeContext.jsx:19-44 | a menu choice survives a reload, with exactly one theme class on the root |

## Left out

- Network transport and the backend: replies are inputs. The request bodies of login and profile update, and the headers of each real request, are not traced through the request interceptor.
- Rendering, styling, icons and labels; the confirm and alert popups; the delete handlers, which consist of a confirm popup, a delete request, a refetch and an alert.
- The employees page's `fetchDivisions` load of the filter options, the dashboard statistics page, the navigation bar, the theme toggle menu, the `useTheme` hook (its storage helper is not part of this model) and the layout's provider nesting.
- The `FileReader` image preview, the `matchMedia` listener registration and removal, the `setTimeout` around the profile sync, and React's effect scheduling and re-render order. Handlers run one at a time, each on the state it finds.
- The server-side guard `typeof window !== 'undefined'`: the model always runs in a browser.
- `JSON.parse`/`JSON.stringify`: abstract functions in `Auth.Codec`. A stored user text that parses to a non-object is not modelled.
- Users are modelled by name, username and email, the only fields the core reads. Ids are strings, so a numeric id 0 (falsy in JavaScript) is not modelled.
- Listing.CurrentPage: only defined for a `page` parameter that is absent, empty or an integer literal. `parseInt` on other text (a numeric prefix, NaN) and the loss of precision of very large numbers are not modelled. Its contract states only the default; the parse of other values is stated by `Listing.CurrentPageAfterUpdate` for the texts the navigator writes.
- URL parameters are a map, one value per name. Repeated names and parameter order in the address are not modelled. The fetch query, which is built from an ordered object, is an ordered list.
- `Theme.ThemeProvider.ApplyTheme`, `Mount` and `ToggleTheme` require a resolved theme that the class list accepts (non-empty, no whitespace). For other stored text `classList.add` throws, and that path is not modelled.
- The success path of the response interceptor and the error path of the request interceptor only pass their argument on. `Http.ApiClient.Receive` returns a success untouched; the request error path is not modelled separately.
