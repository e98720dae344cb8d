# Task dashboard client, modelled in Dafny

This project models the client-side logic of a small project/task dashboard:
a React front end over a REST API. What the model covers:

- **Session store** (`AuthSlice`). A Redux slice holding `{token, user, loading, error}`
  plus the token kept in browser storage. It is modelled as the class `AuthStore`, with
  one method per reducer case. Each method's frame (`modifies this\`loading, this\`error`, …)
  names exactly the fields its case assigns. The methods `Login`, `Register` and `FetchProfile`
  are the three requests, each modelled by the reply the server gave. The pure function
  `Reduce` is the same reducer on values. Lemmas about it cover sequences of actions: only
  logout and a fulfilled login write the token, and registering never logs anybody in.
- **Route guards** (`Guards`). `ProtectedRoute` and `RoleBasedRoute` decide between
  a redirect to `/login`, a redirect to `/unauthorized` and rendering the page. The
  role test is written `roles.includes(user.role)` with `roles` typed as the string
  `'admin'`. That makes it a substring test, and the model keeps it that way.
- **Project dashboard** (`Dashboard`). The class `DashboardPage` holds the project list, the
  search box, the view the search derives from the list, the two dialog flags and
  `loading`. Its invariant `Valid()` says the view is always the search of the list.
  Every handler keeps that invariant.
- **Task list** (`TaskPage`). The class `TaskListPage` does the same for one project's tasks. Here the search
  box and the status drop-down each recompute the view from the full list, so the one
  that ran last decides the view. Edits merge the reply onto the task
  (`{...t, ...updated}`), creates and assignments fetch the whole list again.
- **Status drop-down** (`TaskStatusFilter`), **page header** (`Layout`), and the three
  form dialogs (`ProjectModal`, `TaskModal`, `AssignUserModal`).
- Shared pieces: `Common` (Option, the server reply `Outcome`, notices, the truthiness
  rules of JavaScript), `Text` (ASCII `toLowerCase`, `startsWith`, `includes`),
  `Seqs` (`filter` and `map` with order and membership facts) and `Decimal`
  (`String(n)` and `Number(s)` for integer ids).

A server reply is the parameter `Outcome<T> = Ok(value) | Err(message)`. An empty
`message` stands for a reply without one, which the code treats as falsy.
A confirmation dialog's answer is a `bool` parameter. A toast is returned as a `Notice`.

Where the system's design description and its code disagree, the model follows the code:

- The profile request has no pending or rejected case. It never sets `loading` or
  `error`, and its failure leaves the state untouched.
- Creating a task fetches the list again instead of appending. A failed create leaves the
  create dialog open.
- The role guard tests for a substring, not for equality (see Findings).

## Model

| member | source | states |
|---|---|---|
| `Text.Lower` | src/pages/Dashboard.tsx:46 | `toLowerCase` lowers each ASCII letter in place and keeps the length |
| `Text.LowerIdempotent` | src/pages/Dashboard.tsx:46 | lowering an already lowered query changes nothing |
| `Text.StartsWith` | src/components/Layouts.tsx:21 | `startsWith` holds for the empty prefix and for the string itself, and never for a prefix longer than the string |
| `Text.Contains` | src/pages/Dashboard.tsx:50-51 | every string includes the empty string, and an included part is never longer than the string |
| `Text.ContainsIffOccurs` | src/pages/Dashboard.tsx:50-51 | `includes` holds exactly when the part occurs at some index of the string |
| `Seqs.Filter` | src/pages/Dashboard.tsx:48-53 | `filter` returns only accepted elements of the input, includes the element at every accepted position, and never grows the list; the count of copies is `Seqs.FilterCount` |
| `Seqs.FilterCount` | src/pages/Dashboard.tsx:48-53 | `filter` keeps every copy of an accepted element and no copy of a rejected one |
| `Seqs.Map` | src/pages/Dashboard.tsx:79-81 | `map` keeps the length and transforms each position |
| `Common.OrElse` | src/slices/authSlice.ts:44 | `message || fallback` gives the message when it is non-empty, else the fallback, so a non-empty fallback never yields "" |
| `Decimal.IntToString` | src/pages/Task/components/AssignUserModal.tsx:35 | `String(n)` is non-empty and starts with a minus sign exactly for negative `n` |
| `Decimal.NumberOf` | src/pages/Task/components/AssignUserModal.tsx:41 | `Number(s)` reads digit strings as their value, and a negative result needs a leading minus |
| `Decimal.IntRoundTrip` | src/pages/Task/components/AssignUserModal.tsx:35-41 | `Number(String(n)) === n` for every integer id (the model's ids are unbounded integers, see Left out) |
| `AuthSlice.RejectionPayload` | src/slices/authSlice.ts:29-76 | a rejection carries a non-empty message: the server's `error` for register and login when present, else "Registrasi gagal", "Login gagal" or, always for the profile, "Gagal ambil profile" |
| `AuthSlice.Reduce` | src/slices/authSlice.ts:82-118 | only logout and a fulfilled login change the token, only logout and a fulfilled profile change the user; logout clears both, login stores its token, the profile stores its user |
| `AuthSlice.LogoutIdempotent` | src/slices/authSlice.ts:82-86 | logout clears token and user, and logging out twice equals logging out once |
| `AuthSlice.PendingTouchesOnlyLoadingAndError` | src/slices/authSlice.ts:91-107 | the two pending cases set `loading`, clear `error` and keep token and user |
| `AuthSlice.RejectedKeepsCredentials` | src/slices/authSlice.ts:99-114 | the two rejected cases clear `loading`, store the payload and keep token and user |
| `AuthSlice.ProfileIgnoresToken` | src/slices/authSlice.ts:115-118 | a profile arriving after logout fills `user` while the token stays empty |
| `AuthSlice.TokenWrittenOnlyByLoginOrLogout` | src/slices/authSlice.ts:82-118 | across any actions, the token changes only through logout or a fulfilled login |
| `AuthSlice.UserWrittenOnlyByProfileOrLogout` | src/slices/authSlice.ts:82-118 | across any actions, the user changes only through logout or a fulfilled profile |
| `AuthSlice.RegisterNeverAuthenticates` | src/slices/authSlice.ts:103-114 | any sequence of register actions leaves token and user as they were |
| `AuthSlice.AuthStore.constructor` | src/slices/authSlice.ts:20-25 | initial state: the stored token, no user, not loading, no error |
| `AuthSlice.AuthStore.Logout` | src/slices/authSlice.ts:82-86 | token, user and stored token become empty, and `loading` and `error` are untouched |
| `AuthSlice.AuthStore.LoginPending` | src/slices/authSlice.ts:91-94 | sets `loading`, clears `error`, nothing else |
| `AuthSlice.AuthStore.LoginFulfilled` | src/slices/authSlice.ts:95-98 | clears `loading` and sets the token, nothing else |
| `AuthSlice.AuthStore.LoginRejected` | src/slices/authSlice.ts:99-102 | clears `loading` and sets `error` to the payload, nothing else |
| `AuthSlice.AuthStore.RegisterPending` | src/slices/authSlice.ts:104-107 | sets `loading`, clears `error`, nothing else |
| `AuthSlice.AuthStore.RegisterFulfilled` | src/slices/authSlice.ts:108-110 | only clears `loading` |
| `AuthSlice.AuthStore.RegisterRejected` | src/slices/authSlice.ts:111-114 | clears `loading` and sets `error` to the payload, nothing else |
| `AuthSlice.AuthStore.ProfileFulfilled` | src/slices/authSlice.ts:116-118 | replaces only `user` |
| `AuthSlice.AuthStore.Login` | src/slices/authSlice.ts:50-61 | success stores and sets the token, failure keeps it and records the payload, and state and storage keep agreeing |
| `AuthSlice.AuthStore.Register` | src/slices/authSlice.ts:30-47 | only `loading` and `error` change; failure records the payload |
| `AuthSlice.AuthStore.FetchProfile` | src/slices/authSlice.ts:64-76 | only a success changes anything, and only `user` |
| `Guards.ProtectedRoute` | src/components/protectedRoute.tsx:9-17 | renders exactly when the token is truthy, otherwise redirects to login, and never to unauthorized |
| `Guards.RoleBasedRoute` | src/RoleBaseRoute.tsx:10-23 | redirects to login exactly when the token is falsy, and to unauthorized only when a role is required |
| `Guards.LoginCheckFirst` | src/RoleBaseRoute.tsx:14-16 | a falsy token yields the login redirect whatever the user and roles |
| `Guards.NoRolesRenders` | src/RoleBaseRoute.tsx:18-22 | with a token and no required role the page renders for any user |
| `Guards.UnknownUserUnauthorized` | src/RoleBaseRoute.tsx:18-19 | with a token and a required role, an unknown user is redirected to unauthorized |
| `Guards.AdminGateIsSubstringTest` | src/RoleBaseRoute.tsx:7-18 | with a token, the "admin" route renders exactly when the user's role occurs inside "admin" |
| `Guards.PartialRolesPassAdminGate` | src/RoleBaseRoute.tsx:7-18 | roles "", "adm" and "min" pass the admin gate |
| `Guards.ProtectedAgreesWithoutRoles` | src/components/protectedRoute.tsx:12-16 | without a required role both guards decide alike, regardless of the user |
| `Guards.RoleBasedRouteExact` | src/RoleBaseRoute.tsx:14-22 | the guard with an equality role test: login redirect exactly without a token |
| `Guards.ExactGateAdmitsOnlyTheRole` | src/RoleBaseRoute.tsx:18-19 | with a token and a required role, the exact guard renders iff the user's role equals it, and without a role it matches ProtectedRoute |
| `Guards.ExactIsStricter` | src/RoleBaseRoute.tsx:18 | whatever the exact guard admits, the written guard admits too |
| `Layout.PageTitle` | src/components/Layouts.tsx:16-30 | the title is always one of the four titles |
| `Layout.DashboardTitle` | src/components/Layouts.tsx:17-19 | "/dashboard" is titled "Dashboard" |
| `Layout.ProjectPathWithIdIsTaskList` | src/components/Layouts.tsx:21-23 | any "/project/" path with an id is titled "Task List" |
| `Layout.ProjectJoinedTitle` | src/components/Layouts.tsx:21-27 | "Project Joined" appears iff the path is "/project/joined" and there is no id |
| `Layout.WelcomeOtherwise` | src/components/Layouts.tsx:16-30 | "Welcome" appears iff none of the three earlier checks holds |
| `TaskStatusFilter.Toggled` | src/components/TaskStatusFilter.tsx:25-30 | a toggle flips whether the clicked label is selected and leaves every other label's membership as it was |
| `TaskStatusFilter.ToggleRemoves` | src/components/TaskStatusFilter.tsx:26-27 | toggling a present label removes every copy of it and keeps every copy of the other labels, in order |
| `TaskStatusFilter.ToggleAppends` | src/components/TaskStatusFilter.tsx:28-29 | toggling an absent label appends it after the unchanged earlier labels |
| `TaskStatusFilter.ToggleNoDuplicates` | src/components/TaskStatusFilter.tsx:24-30 | a toggle keeps the labels distinct |
| `TaskStatusFilter.ClicksKeepNoDuplicates` | src/components/TaskStatusFilter.tsx:24-30 | any click sequence keeps distinct labels distinct |
| `TaskStatusFilter.SelectionFromEmptyHasNoDuplicates` | src/components/TaskStatusFilter.tsx:22-30 | starting from the empty selection, no clicks create a duplicate |
| `TaskStatusFilter.ToggleTwiceAbsent` | src/components/TaskStatusFilter.tsx:26-30 | two clicks on an absent label restore the exact list |
| `TaskStatusFilter.ToggleTwicePresent` | src/components/TaskStatusFilter.tsx:26-30 | two clicks on a present label restore the set of labels |
| `TaskStatusFilter.StatusSelection.constructor` | src/components/TaskStatusFilter.tsx:22 | the selection starts empty |
| `TaskStatusFilter.StatusSelection.Toggle` | src/components/TaskStatusFilter.tsx:24-33 | stores the toggled list and reports exactly it to `onFilter`, keeping labels distinct |
| `Dashboard.SearchProjects` | src/pages/Dashboard.tsx:45-54 | keeps exactly the projects whose lowered title or description contains the lowered query, in list order, with every copy of a matching project and none of the others |
| `Dashboard.SearchEmptyKeepsAll` | src/pages/Dashboard.tsx:45-54 | an empty query keeps every project |
| `Dashboard.SearchIdempotent` | src/pages/Dashboard.tsx:45-54 | searching the result again with the same query changes nothing |
| `Dashboard.SearchIgnoresQueryCase` | src/pages/Dashboard.tsx:46 | a query and its lowered form give the same result |
| `Dashboard.ReplaceById` | src/pages/Dashboard.tsx:79-81 | every project with the id becomes the reply, and the others and the length stay |
| `Dashboard.ReplaceAbsentIdUnchanged` | src/pages/Dashboard.tsx:79-81 | editing an id no project has changes nothing |
| `Dashboard.ReplaceByIdIdempotent` | src/pages/Dashboard.tsx:79-81 | repeating an edit whose reply keeps the id changes nothing |
| `Dashboard.RemoveById` | src/pages/Dashboard.tsx:109 | no project with the id remains, and every other one stays with all its copies, in order |
| `Dashboard.RemoveAbsentIdUnchanged` | src/pages/Dashboard.tsx:109 | deleting an id no project has changes nothing |
| `Dashboard.ProjectPath` | src/pages/Dashboard.tsx:124 | the card's route starts with "/project/" followed by text that `Number` reads back as the project id |
| `Dashboard.CreatedIsOnlyHolderOfItsId` | src/pages/Dashboard.tsx:60-61 | after creating with a fresh id, the server's project is the only one with that id |
| `Dashboard.ProjectPathTitledTaskList` | src/pages/Dashboard.tsx:124 | the route a card navigates to is headed "Task List" |
| `Dashboard.JoinProject` | src/pages/Dashboard.tsx:119-129 | the join handler always alerts and navigates to the project iff the join succeeds: "Berhasil join project!" on success, else the server message or "Gagal join project" |
| `Dashboard.ProjectButton` | src/pages/Dashboard.tsx:177-181 | a card navigates iff it is joined or the join succeeds, and alerts iff it is not joined; a joined card opens its route directly, any other goes through the join handler |
| `Dashboard.DashboardPage.constructor` | src/pages/Dashboard.tsx:19-26 | empty lists and query, dialogs closed, not loading, view consistent |
| `Dashboard.DashboardPage.SearchEffect` | src/pages/Dashboard.tsx:45-54 | the view becomes the search of the list |
| `Dashboard.DashboardPage.SetSearch` | src/pages/Dashboard.tsx:135-139 | a new query re-filters the list |
| `Dashboard.DashboardPage.Load` | src/pages/Dashboard.tsx:28-42 | success sets the list to the data and the view to the search of that data under the current query, failure keeps both, `loading` ends false |
| `Dashboard.DashboardPage.AddProject` | src/pages/Dashboard.tsx:56-70 | success appends the reply, failure keeps the list, and the add dialog closes on both paths |
| `Dashboard.DashboardPage.EditProject` | src/pages/Dashboard.tsx:72-91 | success replaces by id, failure keeps the list, and the edit dialog closes on both paths |
| `Dashboard.DashboardPage.DeleteProject` | src/pages/Dashboard.tsx:93-117 | the list loses the id only if confirmed and successful; otherwise nothing changes |
| `TaskPage.Overlay` | src/pages/Task.tsx:130 | `{ ...t, ...updated }`: a reply with every key replaces the task, a reply with no key keeps it, and a reply without `id` keeps the id |
| `TaskPage.OverlayIdempotent` | src/pages/Task.tsx:130 | merging the same reply twice equals merging it once |
| `TaskPage.MergeById` | src/pages/Task.tsx:129-131 | every task with the id gets the reply merged on, and the others and the length stay |
| `TaskPage.MergeCompleteReplyReplaces` | src/pages/Task.tsx:129-131 | with a complete reply the merge acts as the dashboard's replace |
| `TaskPage.MergeAbsentIdUnchanged` | src/pages/Task.tsx:129-131 | editing an id no task has changes nothing |
| `TaskPage.RemoveById` | src/pages/Task.tsx:167 | no task with the id remains, and every other one stays with all its copies, in order |
| `TaskPage.SearchTasks` | src/pages/Task.tsx:78-91 | keeps exactly the tasks whose lowered title, status or non-empty assignee name contains the lowered query, in order, with every copy of a matching task and none of the others |
| `TaskPage.SearchEmptyKeepsAll` | src/pages/Task.tsx:78-91 | an empty query keeps every task |
| `TaskPage.SearchIdempotent` | src/pages/Task.tsx:78-91 | searching the result again with the same query changes nothing |
| `TaskPage.StatusFiltered` | src/pages/Task.tsx:189-197 | an empty selection keeps all; otherwise exactly the tasks whose status is selected, compared exactly, in order, with every copy of a kept task |
| `TaskPage.StatusFilterDoneScenario` | src/pages/Task.tsx:189-197 | selecting "Done" over Todo, Done, Done shows the two done tasks |
| `TaskPage.TaskListPage.constructor` | src/pages/Task.tsx:49-58 | empty lists and query, dialogs closed, not loading |
| `TaskPage.TaskListPage.SearchEffect` | src/pages/Task.tsx:78-91 | the view becomes the search of the full list |
| `TaskPage.TaskListPage.SetSearch` | src/pages/Task.tsx:182-186 | a new query re-filters the full list |
| `TaskPage.TaskListPage.OnStatusFilter` | src/pages/Task.tsx:188-198 | the view becomes the status filter of the full list, regardless of the search |
| `TaskPage.TaskListPage.Load` | src/pages/Task.tsx:62-75 | no route id changes nothing; otherwise success sets the list, failure keeps it and shows "Failed load task", and `loading` ends false |
| `TaskPage.TaskListPage.AddTask` | src/pages/Task.tsx:101-119 | success replaces the list with the refetch and closes the dialog; any failure keeps list and dialog |
| `TaskPage.TaskListPage.EditTask` | src/pages/Task.tsx:121-150 | success merges the reply by id, failure keeps the list and shows the server message or "Gagal update task"; the dialog closes and `loading` ends false on both paths |
| `TaskPage.TaskListPage.DeleteTask` | src/pages/Task.tsx:152-174 | the list loses the id only if confirmed and successful; otherwise nothing changes |
| `TaskPage.TaskListPage.OpenAssignDialog` | src/pages/Task.tsx:302-306 | remembers the task and opens the assign dialog |
| `TaskPage.TaskListPage.CloseAssignDialog` | src/pages/Task.tsx:313 | closes the assign dialog |
| `TaskPage.TaskListPage.AssignUser` | src/pages/Task.tsx:324-330 | when assign and refetch succeed, the list becomes the refetch whatever the task and user; otherwise nothing changes |
| `ProjectModal.DateInputValue` | src/components/ProjectModal.tsx:96 | a date input shows the first min(10, length) characters of the stored value |
| `ProjectModal.DateInputValueStable` | src/components/ProjectModal.tsx:108 | short values show whole, and reshowing changes nothing |
| `ProjectModal.ProjectForm.constructor` | src/components/ProjectModal.tsx:25-43 | mode defaults to "add"; fields are empty, or copied from `initialData` when given |
| `ProjectModal.ProjectForm.SyncInitialData` | src/components/ProjectModal.tsx:36-43 | given `initialData` sets all four fields, otherwise none |
| `ProjectModal.ProjectForm.Submit` | src/components/ProjectModal.tsx:45-54 | emits the current fields; "add" clears them, "edit" keeps them |
| `TaskModal.StatusOptionsMatchFilter` | src/components/TaskModal.tsx:50-54 | the form offers exactly "Todo", "In Progress", "Done", the labels the status drop-down filters by |
| `TaskModal.SubmittedCreator` | src/components/TaskModal.tsx:62 | the creator id is `initialData.created_by` when defined, else 0 |
| `TaskModal.TaskForm.constructor` | src/components/TaskModal.tsx:33-48 | fields are empty, or copied from `initialData` when given |
| `TaskModal.TaskForm.SyncInitialData` | src/components/TaskModal.tsx:42-48 | given `initialData` sets all three fields, otherwise none |
| `TaskModal.TaskForm.SetStatus` | src/components/TaskModal.tsx:92 | the select sets the status field |
| `TaskModal.TaskForm.Submit` | src/components/TaskModal.tsx:56-67 | emits the current fields with the creator id, then clears all three in either mode |
| `AssignUserModal.InitialSelection` | src/pages/Task/components/AssignUserModal.tsx:34-36 | a selection exists iff the initial user id is nonzero |
| `AssignUserModal.SubmitCalls` | src/pages/Task/components/AssignUserModal.tsx:38-44 | no callback without a non-empty selection; otherwise `onSubmit(Number(selection))` then `onClose` |
| `AssignUserModal.UnchangedSubmitReturnsInitialId` | src/pages/Task/components/AssignUserModal.tsx:34-43 | the untouched dialog submits back the nonzero id it was opened with, and submits nothing for 0 |
| `AssignUserModal.ChosenUserIsSubmitted` | src/pages/Task/components/AssignUserModal.tsx:63-64 | choosing a listed user submits that user's id |
| `AssignUserModal.AssignForm.constructor` | src/pages/Task/components/AssignUserModal.tsx:34-36 | the selection starts as the initial selection |
| `AssignUserModal.AssignForm.Choose` | src/pages/Task/components/AssignUserModal.tsx:58 | the select sets the selection |
| `AssignUserModal.AssignForm.Submit` | src/pages/Task/components/AssignUserModal.tsx:38-44 | makes the submit callbacks, submit first and close last |

## Findings

| source | as written | input that shows it | evidently intended | confidence | as-written member | corrected member |
|---|---|---|---|---|---|---|
| src/RoleBaseRoute.tsx:7-18 | `roles` is the string `'admin'`, so `roles.includes(user.role)` is a substring test | a logged-in user whose role is "adm", "min" or "" opens an admin-only route | the user's role equals the required role | medium, not executed | `Guards.RoleBasedRoute`, shown by `Guards.PartialRolesPassAdminGate` | `Guards.RoleBasedRouteExact`, proved by `Guards.ExactGateAdmitsOnlyTheRole` |

## Left out

- HTTP calls and the API client (src/services/*.ts, the request bodies in src/slices/authSlice.ts). Their settled results are `Outcome` parameters.
- Browser storage. It appears only as the `storedToken` field. Writing an absent `res.data.token` (stored as "undefined") is not modelled.
- A server `error` or `message` field that is not a string. Messages are strings, and "" means none.
- Concurrency: overlapping requests, last-response-wins, handlers that close over a stale list, updates after unmount, and a request that never settles. Each handler runs to completion in one step.
- React's effect scheduling. The search effect is re-run at the end of every handler that sets the list, because each sets a new array.
- Toasts, SweetAlert dialogs and `console.error`. Toasts are returned as `Notice`s, and a confirmation is a `bool`.
- Rendering: JSX, skeleton loaders, icons, the capitalised status labels, and the admin-only buttons (`user?.role === "admin"`).
- The input `onChange` handlers for the project form's four fields and the task form's title, and the dialogs' `onOpenChange` setters. Each is a single field assignment.
- The joined-users load of the task page (src/pages/Task.tsx:93-99). It only fills the assign dialog's option list.
- Route-id parsing with `Number(id)` before service calls. The replies are parameters.
- JavaScript numbers: the ids of projects, tasks and users, `assigned_to`, `created_by` and the assign dialog's `initialUserId` are unbounded integers. `String`'s exponent form from 1e21 and the loss of precision past 2^53 are not modelled, and a null `assigned_to` reads as 0.
- Full Unicode `toLowerCase`. Only ASCII letters are lowered.
- Decimal.NumberOf: models `Number` only for optional-minus decimal digit strings and "". Whitespace, "+", fractions, exponents and hex are read as NaN, and "-0" is 0.
- The task's `user` field is declared a string (src/services/taskService.ts:14) but used as an object with a `name`. It is modelled as an optional record, so the `typeof` check is implied by presence.
- `AppInitializer`, `Login.tsx`, the sidebar, the router in `main.tsx` and `JoinedProject.tsx`. These are dispatch and navigation glue or render-only pages.
