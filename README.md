# Interview dashboard: pagination, session accessor and panel gate

A Dafny model of the three pieces of the admin dashboard front end that carry
logic of their own:

- **Student list pagination** (`Students`, app/students/page.tsx): the fetch
  offset, the page count `ceil(total / 10)`, the "Showing X to Y" line, the
  page-button list built by `getVisiblePages` (page 1, an optional `'...'`,
  the window current±2, an optional `'...'`, the last page), and the page
  state that the previous/next/click handlers and the user loader update.
  The button list is a function `VisiblePages` and also the loop-and-push
  method `StudentsPage.GetVisiblePages`, proved equal to it.
- **Session accessor** (`Auth`, lib/useAuth.ts): a `Session` class holding the
  nullable user record, the `isLoading` flag and browser storage (a map from
  keys to text); the mount-time loader and `logout` as methods; the role,
  authentication flag, role display name and user display name as functions
  of the user record. `JSON.parse` is a function parameter that yields a
  record or fails.
- **Panel access gate** (`Panel`, app/panel/page.tsx): the redirect effect
  (the list of `router.push` calls it makes) and the render guards, over the
  loading flag, the token check and the role.

`Wrappers` holds the `Option` type used for nullable values.

Facts of the code that shape the model:

- The role is an arbitrary string. The `UserData` interface declares
  `role: 'ta_member' | 'ta_admin' | 'panelist'` (lib/useAuth.ts:11), but the
  login page stores the raw `<select>` value (`user`, `admin` or
  `moderator`, app/login/page.tsx:47, 96-98) and nothing checks it on load.
  So the default branch of `getRoleDisplayName` is reachable, and no user
  who signs in through the form is admitted to the panel
  (`Panel.LoginFormRolesDenied`).
- The panel page destructures `hasValidToken` from `useAuth`
  (app/panel/page.tsx:12), but the object `useAuth` returns has no such key
  (lib/useAuth.ts:80-88), so the name is `undefined`. While loading, the
  short-circuit `&&` skips both calls in the effect (app/panel/page.tsx:16,
  23) and the render returns the spinner (lines 30-39). Once loading ends,
  the render guard at line 42 calls `undefined` and throws a `TypeError`.
  The model takes the token check as a boolean input and describes the gate
  that the page is written to implement.
- The sidebar's filter of the menu by role is commented out
  (components/sidebar/Sidebar.tsx:106-107); the menu is not part of this
  model.

Edge cases of the source that the model keeps and proves: with one page the
button list is `[1, 1]` and with no pages it is `[1, 0]` (`Students.FewPages`).
With no pages the list therefore offers a button for page 0, and clicking it
sets the current page to 0, outside 1..max(1, totalPages); that is why
`Students.StudentsPage.HandlePageClick` promises to stay in range only when
there is at least one page.
A stored empty string under `userData` is treated as absent, because the
loader tests the text for truthiness before parsing it.

## Model

| member | source | states |
|---|---|---|
| Students.PageCount | app/students/page.tsx:45 | the page count is the fewest pages of 10 that hold all rows; zero exactly when there are no rows |
| Students.SkipInsideTotal | app/students/page.tsx:40-45 | for a page between 1 and the page count, the fetch offset `(page-1)*10` is a row that exists: `0 <= skip < total` |
| Students.ShowingRange | app/students/page.tsx:151 | for a page inside the page count, "Showing X to Y" has `1 <= X <= Y <= total`, `X = skip + 1`, and names exactly the rows of that page, at most 10 |
| Students.Consecutive | app/students/page.tsx:79-81 | the window holds the integers lo..hi in order, and is empty when lo > hi |
| Students.AsItems | app/students/page.tsx:89 | spreading the window into the list turns each page number into a number entry, in order |
| Students.NumbersOfItems | app/students/page.tsx:89 | dropping the markers from the spread window gives back the window |
| Students.VisiblePages | app/students/page.tsx:74-98 | the list has 2 to 9 entries, starts with page 1 and ends with `totalPages`, for any inputs |
| Students.VisibleNumbers | app/students/page.tsx:79-95 | the numbers of the list are 1, then max(2, current-2)..min(total-1, current+2), then total; the list holds one `'...'` per hidden gap and no other marker |
| Students.VisibleMiddle | app/students/page.tsx:79-89 | the numbers strictly between the first and last entry are exactly the consecutive window max(2, current-2)..min(total-1, current+2) |
| Students.VisibleDots | app/students/page.tsx:83-95 | for current >= 1, a `'...'` follows page 1 iff current-2 > 2; a `'...'` precedes the last page when current+2 < total-1, and only then when 1 <= current <= total |
| Students.VisiblePagesWellFormed | app/students/page.tsx:74-98 | for 1 <= current <= total, every number lies in 1..total, the current page has a button, and with two pages or more the numbers strictly increase |
| Students.VisibleEntriesInRange | app/students/page.tsx:164-178 | any page number a button offers lies in 1..total when the current page is inside the page count |
| Students.FewPages | app/students/page.tsx:74-98 | with at most one page and current in 1..4 the list is `[1, totalPages]`: `[1, 1]` for one page, `[1, 0]` for none |
| Students.StudentsPage.constructor | app/students/page.tsx:11-16 | initial state: no rows, loading, no error, page 1, zero rows and pages |
| Students.StudentsPage.BeginLoadUsers | app/students/page.tsx:36-41 | loading is set, the error is cleared, and the request asks for 10 rows at offset `(page-1)*10`; for a page inside the known page count that offset is an existing row |
| Students.StudentsPage.CompleteLoadUsers | app/students/page.tsx:41-51 | on success rows, total and page count come from the response; on failure the fixed error message is set and the rows are kept; loading ends on both paths; the page count always matches the row total |
| Students.StudentsPage.HandlePreviousPage | app/students/page.tsx:58-62 | steps back only from a page above 1; keeps the current page in 1..max(1, totalPages) |
| Students.StudentsPage.HandleNextPage | app/students/page.tsx:64-68 | steps forward only from a page below `totalPages`; keeps the current page in 1..max(1, totalPages) |
| Students.StudentsPage.HandlePageClick | app/students/page.tsx:70-72 | sets the clicked page; clicking a number button of the list keeps the page in range whenever there is at least one page |
| Students.StudentsPage.GetVisiblePages | app/students/page.tsx:74-98 | the loop that pushes the window and the markers produces exactly `VisiblePages(currentPage, totalPages)` |
| Auth.UserRole | lib/useAuth.ts:41-43 | the role is never empty: the stored role when a user with a non-empty role is loaded, `ta_member` otherwise |
| Auth.IsAuthenticated | lib/useAuth.ts:45-47 | true iff a user record is loaded; without one the role, role name and user name are the defaults |
| Auth.RoleDisplayName | lib/useAuth.ts:56-68 | `ta_admin`, `ta_member`, `panelist` map to `TA Admin`, `TA Member`, `Panelist`; any other role to `User`; no user gives `TA Member` |
| Auth.UserDisplayName | lib/useAuth.ts:70-78 | never empty: `User` without a user; `first last` when both names are non-empty; otherwise the username, or `User` if it is empty |
| Auth.LoginFormRolesShowAsUser | app/login/page.tsx:44-49 | a record stored by the login form keeps its raw role, whose display name is `User` |
| Auth.Session.constructor | lib/useAuth.ts:16-17 | a new accessor has no user and is loading |
| Auth.Session.LoadUserData | lib/useAuth.ts:21-39 | loading ends on every path; parseable text becomes the user; text that fails to parse is removed and the user is unchanged; missing or empty text changes nothing; no other key is touched |
| Auth.Session.Logout | lib/useAuth.ts:50-54 | removes `userData` and only it, clears the user, returns `/login`; afterwards not authenticated and the role is `ta_member` |
| Auth.UseAuth | lib/useAuth.ts:15-39 | after mounting, loading is over, a user is loaded iff the stored text parses, and unparseable text is gone from storage |
| Panel.Evaluate | app/panel/page.tsx:15-50 | content renders iff not loading, the token is valid and the role is `panelist` or `ta_admin`; while loading only the spinner and no redirect; invalid token: only `/login`, nothing rendered; wrong role: only `/dashboard`, nothing rendered; at most one redirect; nothing is rendered exactly when a redirect is issued |
| Panel.DefaultRoleDenied | app/panel/page.tsx:46-50 | a session with no user or no stored role gets the default `ta_member`, is never shown the panel, and is sent to `/dashboard` once settled with a valid token |
| Panel.LoginFormRolesDenied | app/panel/page.tsx:21-26 | the roles the login form stores (`user`, `admin`, `moderator`) are never admitted and are sent to `/dashboard` once settled with a valid token |

## Left out

- `fetchUsers` and the login proxy are HTTP calls; the fetch is split at its `await` into a request (`BeginLoadUsers`) and an outcome passed in (`CompleteLoadUsers`), and the response body is taken as given.
- Students.StudentsPage.CompleteLoadUsers: the total in the response is taken to be a non-negative integer; a fractional or negative total from the server is not modelled.
- The `useEffect` that reloads on every page change and the interleaving of concurrent loads are not modelled; each load is one begin/complete pair.
- Auth.Session.LoadUserData: stored JSON that parses to something other than an object (`null`, a number) is not modelled; `parse` either yields a record or fails. A key missing from the parsed object is read as the empty string for `role` and `username`, which behaves the same under `||`.
- `console.error` logging and the `router.push('/login')` navigation inside `logout` are effects outside the model; logout returns the route instead.
- Panel.Evaluate: models the gate for a token check that the accessor does not provide, taking its value as a boolean input that is the same at each call within one evaluation; the page as written throws a `TypeError` at app/panel/page.tsx:42 once loading ends, so it never reaches the `/login`, `/dashboard` or content outcomes the model describes.
- The debounced search hook, clipboard and timer code, charts, KPI cards, the sidebar menu (its role filter is commented out) and the test-credential tables are timers, browser APIs, foreign libraries or constant data.
- Rendering of tables, cards, modals and forms has no behaviour beyond markup.
