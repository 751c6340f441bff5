# DIU transport client — a Dafny model of its client-side logic

This project models the sequential logic underneath the React transport-management
UI: the session/role state that the authentication context keeps, the dashboard's
redirect and navigation decisions that read it, the in-memory schedule list with
its editing form, and the search, filter, classification and statistics rules of
the schedule, transport-schedule and notice pages. The identity provider and the
REST backend are not modelled; what they deliver (the notified user, the upsert
outcome, the role-lookup reply, the clock reading used as an id, the answer to a
confirmation dialog) enters the model as input values.

Files and modules:

- `maybe.dfy` (`Maybe`): `Option`, for JavaScript's `null`.
- `seqs.dfy` (`Seqs`): `Filter` (`Array.prototype.filter`) and `Dedup`
  (`[...new Set(xs)]`), with order-preserving sublist (`IsSubseq`), multiplicity
  and first-occurrence-order lemmas.
- `text.dfy` (`Text`): `toLowerCase` (ASCII), `includes`, `trim`.
- `geo.dfy` (`Geo`): map points.
- `route_search.dfy` (`RouteSearch`): the search rule shared by the schedule
  management page and the public transport-schedule page.
- `schedule_form.dfy` (`ScheduleForm`): the schedule modal, a class whose
  `form` field its handlers update.
- `schedule_list.dfy` (`ScheduleList`): the schedule page, a class holding the
  schedule list, the modal flag, the schedule being edited and the mounted
  modal, plus the filtered view and the route-number drop-down.
- `transport_schedule.dfy` (`TransportSchedule`): the constant route table, its
  filtered view and drop-down.
- `notices.dfy` (`Notices`): the notice filter, priority/category
  classification and statistics.
- `auth.dfy` (`Auth`): the authentication context. It is a class
  `AuthProvider` with fields `user`, `role` and `loading`. The entry points and
  the notification handler are proved against the pure transition `Step`;
  `FetchUserRole` is proved against `ResolveRole` and `SaveUserToBackend`
  against `UpsertBody`. Lemmas over `Step` and over event
  sequences (`Run`) state the role-safety rules.
- `dashboard.dfy` (`DashboardLayout`): the redirect decision, the nav-list
  choice and the page title.

Behaviour of the code that the model keeps:

- `SignOutUser` clears only the role and raises `loading`. It does not clear
  the user; the provider's next notification does.
- No guard discards a role-lookup reply that belongs to an identity which has
  since signed out or changed (see "Left out").
- Any non-empty role string the backend returns is stored; only `"admin"` is
  treated as admin, and every other role as a user.
- The schedule modal stays mounted and reloads its form only when the schedule
  being edited changes. After an add, or on "Add New" when nothing was being
  edited, the modal shows the data it last held rather than a blank form.

## Model

| member | source | states |
|---|---|---|
| `ScheduleForm.InitialForm` | src/Pages/Dashboard/Schedules/Schedules.jsx:55-75 | with no schedule the text fields are empty, each time array holds one empty slot and the coordinates one default point `[23.746, 90.376]`; an existing schedule is loaded unchanged |
| `ScheduleForm.ScheduleModal.constructor` | src/Pages/Dashboard/Schedules/Schedules.jsx:46-53 | the form starts as the blank form |
| `ScheduleForm.ScheduleModal.LoadSchedule` | src/Pages/Dashboard/Schedules/Schedules.jsx:55-75 | the form becomes the initial form for the `schedule` prop |
| `ScheduleForm.ScheduleModal.HandleInputChange` | src/Pages/Dashboard/Schedules/Schedules.jsx:77-83 | only the named text field changes, by `WithText`, which keeps the other two text fields, both time arrays and the coordinates |
| `ScheduleForm.ReplaceAt` | src/Pages/Dashboard/Schedules/Schedules.jsx:85-90 | length is kept, position `index` holds the new value when in range, every other position is unchanged |
| `ScheduleForm.ScheduleModal.HandleTimeArrayChange` | src/Pages/Dashboard/Schedules/Schedules.jsx:85-90 | only the named time array changes, by `ReplaceAt`; its length is kept |
| `ScheduleForm.ScheduleModal.AddTimeSlot` | src/Pages/Dashboard/Schedules/Schedules.jsx:92-97 | exactly one `''` slot is appended to the named array; nothing else changes |
| `ScheduleForm.RemoveAt` | src/Pages/Dashboard/Schedules/Schedules.jsx:103 | in range: one shorter, elements before `index` in place, elements after shifted down by one; out of range: unchanged |
| `ScheduleForm.GuardedRemove` | src/Pages/Dashboard/Schedules/Schedules.jsx:99-106 | no-op at length at most 1 and for an index out of range; otherwise exactly `s[..index] + s[index+1..]`; a non-empty array stays non-empty |
| `ScheduleForm.ScheduleModal.RemoveTimeSlot` | src/Pages/Dashboard/Schedules/Schedules.jsx:99-106 | only the named time array changes, by `GuardedRemove`; a non-empty array stays non-empty |
| `ScheduleForm.ScheduleModal.HandleCoordinateChange` | src/Pages/Dashboard/Schedules/Schedules.jsx:108-115 | only the chosen axis of point `index` takes the new number; an out-of-range index changes nothing |
| `ScheduleForm.ScheduleModal.AddCoordinate` | src/Pages/Dashboard/Schedules/Schedules.jsx:117-122 | exactly one default point `[23.746, 90.376]` is appended; nothing else changes |
| `ScheduleForm.ScheduleModal.RemoveCoordinate` | src/Pages/Dashboard/Schedules/Schedules.jsx:124-131 | the coordinates change by `GuardedRemove`; a non-empty list stays non-empty |
| `ScheduleForm.IsFilledSlot` | src/Pages/Dashboard/Schedules/Schedules.jsx:138 | `time.trim() !== ''` holds exactly when the slot is not all white space |
| `ScheduleForm.CleanTimes` | src/Pages/Dashboard/Schedules/Schedules.jsx:138-139 | the result is an order-preserving subsequence with no blank slot, and keeps every non-blank slot as often as it occurred |
| `ScheduleForm.CleanCoordinates` | src/Pages/Dashboard/Schedules/Schedules.jsx:140 | the result is an order-preserving subsequence without `[0, 0]`, and keeps every other point as often as it occurred |
| `ScheduleForm.Clean` | src/Pages/Dashboard/Schedules/Schedules.jsx:133-141 | the text fields are unchanged; both time arrays and the coordinates are cleaned subsequences with no blank slot and no `[0, 0]` |
| `ScheduleForm.CleanBlankFormHasNoTimes` | src/Pages/Dashboard/Schedules/Schedules.jsx:46-53 | cleaning the blank form empties both time arrays and keeps the default point |
| `ScheduleForm.ScheduleModal.HandleSubmit` | src/Pages/Dashboard/Schedules/Schedules.jsx:133-148 | update request with the edited schedule's id exactly when a schedule is being edited, add request otherwise, always carrying the cleaned form |
| `ScheduleList.Merge` | src/Pages/Dashboard/Schedules/Schedules.jsx:447 | the merged record keeps its id and takes all the submitted fields |
| `ScheduleList.UpdateById` | src/Pages/Dashboard/Schedules/Schedules.jsx:445-448 | length, order and ids are kept; records with the id take the new fields; all others are unchanged |
| `ScheduleList.UpdateAbsentIdIsNoop` | src/Pages/Dashboard/Schedules/Schedules.jsx:445-448 | updating an id no record carries leaves the list unchanged |
| `ScheduleList.DeleteById` | src/Pages/Dashboard/Schedules/Schedules.jsx:455 | no record with the id remains; every other record is kept, in order and as often as before |
| `ScheduleList.DeleteAbsentIdIsNoop` | src/Pages/Dashboard/Schedules/Schedules.jsx:455 | deleting an id no record carries leaves the list unchanged |
| `ScheduleList.FilteredSchedules` | src/Pages/Dashboard/Schedules/Schedules.jsx:469-479 | order-preserving sublist; every result matches the search; with a route filter every result has that route number; every match is kept |
| `ScheduleList.EmptyQueryShowsAllSchedules` | src/Pages/Dashboard/Schedules/Schedules.jsx:469-479 | an empty search and "All Routes" return the whole list |
| `ScheduleList.RouteNos` | src/Pages/Dashboard/Schedules/Schedules.jsx:481 | position `i` holds the route number of schedule `i` |
| `ScheduleList.RouteNumbers` | src/Pages/Dashboard/Schedules/Schedules.jsx:481 | an order-preserving sublist of the route numbers with no duplicates, holding every route number of the list, in order of first occurrence |
| `ScheduleList.ScheduleBoard.constructor` | src/Pages/Dashboard/Schedules/Schedules.jsx:357-359 | empty list, modal closed, nothing being edited, and a fresh modal holding the blank form |
| `ScheduleList.ScheduleBoard.SetEditing` | src/Pages/Dashboard/Schedules/Schedules.jsx:55-75 | `editing` takes the new value; the modal's form is reloaded from it exactly when it differs from the old value, and is otherwise untouched |
| `ScheduleList.ScheduleBoard.LoadSchedules` | src/Pages/Dashboard/Schedules/Schedules.jsx:363-434 | the list becomes the given initial list |
| `ScheduleList.ScheduleBoard.AddSchedule` | src/Pages/Dashboard/Schedules/Schedules.jsx:436-443 | the list grows by the new record, with the given id, placed last; the modal closes |
| `ScheduleList.ScheduleBoard.UpdateSchedule` | src/Pages/Dashboard/Schedules/Schedules.jsx:445-451 | the list becomes `UpdateById`; editing ends and the modal closes; the form is reset when a schedule was being edited |
| `ScheduleList.ScheduleBoard.DeleteSchedule` | src/Pages/Dashboard/Schedules/Schedules.jsx:453-457 | confirmed: the list becomes `DeleteById`; not confirmed: unchanged |
| `ScheduleList.ScheduleBoard.HandleEdit` | src/Pages/Dashboard/Schedules/Schedules.jsx:459-462 | editing becomes the schedule and the modal opens; the form is loaded with the schedule's data when editing changed; the list is unchanged |
| `ScheduleList.ScheduleBoard.HandleAddNew` | src/Pages/Dashboard/Schedules/Schedules.jsx:464-467 | editing is cleared and the modal opens; the form is reset only if a schedule was being edited, and otherwise keeps what the modal held; the list is unchanged |
| `ScheduleList.ScheduleBoard.CloseModal` | src/Pages/Dashboard/Schedules/Schedules.jsx:630-633 | the modal closes and editing ends; the form is reset only if a schedule was being edited; the list is unchanged |
| `ScheduleList.ScheduleBoard.Submit` | src/Pages/Dashboard/Schedules/Schedules.jsx:628-636 | editing: the edited id takes the cleaned form and the form is reset; otherwise the cleaned form is appended with the clock reading as id and the form keeps its data; either way the modal closes and nothing is being edited |
| `RouteSearch.EmptyQueryMatches` | src/Pages/TransportSchedule/TransportSchedule.jsx:80-86 | the empty search term and the empty filter admit every route |
| `RouteSearch.SearchHitOccurs` | src/Pages/TransportSchedule/TransportSchedule.jsx:80-84 | a search match means the lowered term occurs in the lowered route number, name or details |
| `TransportSchedule.FilteredRoutes` | src/Pages/TransportSchedule/TransportSchedule.jsx:79-89 | order-preserving subsequence; every result matches the search; with a filter every result has that route number; every match is kept |
| `TransportSchedule.EmptyQueryShowsAllRoutes` | src/Pages/TransportSchedule/TransportSchedule.jsx:80-86 | an empty search term and empty filter yield all routes |
| `TransportSchedule.SearchResultsContainTerm` | src/Pages/TransportSchedule/TransportSchedule.jsx:80-84 | every result's lowered route number, name or details contains the lowered term |
| `TransportSchedule.EmptySearchSelectsRoute` | src/Pages/TransportSchedule/TransportSchedule.jsx:86 | with an empty search, a route filter returns exactly the routes with that number |
| `TransportSchedule.RouteNos` | src/Pages/TransportSchedule/TransportSchedule.jsx:76 | position `i` holds the route number of route `i` |
| `TransportSchedule.RouteNumbers` | src/Pages/TransportSchedule/TransportSchedule.jsx:76 | an order-preserving sublist of the route numbers with no duplicates, holding every route number, in order of first occurrence |
| `TransportSchedule.RoutesDataRouteNumbers` | src/Pages/TransportSchedule/TransportSchedule.jsx:30-76 | the drop-down of the shipped table is `Route 01`, `Route 02`, `Route 03` |
| `Notices.FilteredNotices` | src/Pages/Notice/Notice.jsx:27-32 | order-preserving subsequence; every result matches the search; under a category other than `'all'` every result has that category; every match is kept |
| `Notices.AllCategoriesIsSearchOnly` | src/Pages/Notice/Notice.jsx:30 | under `'all'` only the search condition applies |
| `Notices.InitialViewShowsAll` | src/Pages/Notice/Notice.jsx:10-32 | the initial view (empty search, `'all'`) shows every notice |
| `Notices.SearchResultsContainTerm` | src/Pages/Notice/Notice.jsx:28-29 | every result's lowered title or content contains the lowered term |
| `Notices.PriorityInfo` | src/Pages/Notice/Notice.jsx:35-44 | `'high'` and `'medium'` get their own branch; every other priority, `'normal'` included, gets the default |
| `Notices.CategoryColor` | src/Pages/Notice/Notice.jsx:47-57 | the default branch is taken exactly for categories outside the six known ones |
| `Notices.CategoryColorSeparatesKnown` | src/Pages/Notice/Notice.jsx:47-57 | two different known categories take different branches |
| `Notices.NoticeStatistics` | src/Pages/Notice/Notice.jsx:162-177 | the total is the number of notices; high, medium and normal are each the number of notices with exactly that priority; the three add up to at most the total, and with the notices of any other priority to exactly the total |
| `Notices.CountPriorityIsMultiplicity` | src/Pages/Notice/Notice.jsx:167-175 | the `filter(...).length` count of a priority is the number of notices whose priority is exactly that string |
| `Notices.PriorityCountsPartition` | src/Pages/Notice/Notice.jsx:167-175 | the three priority counts and the count of other priorities partition the notices |
| `Notices.UnknownPriorityLooksNormalButIsNotCounted` | src/Pages/Notice/Notice.jsx:35-44 | a `'low'` notice is drawn like a normal one but counted in none of the three figures |
| `Auth.ResolveRole` | src/Context/FirebaseAutheContext.jsx:70-80 | a successful reply with a non-empty role gives exactly that role; every other reply, failure or exception gives `'user'`; never empty |
| `Auth.AdminOnlyFromBackend` | src/Context/FirebaseAutheContext.jsx:70-80 | the role is `'admin'` exactly when the reply was a success carrying `'admin'` |
| `Auth.UpsertBody` | src/Context/FirebaseAutheContext.jsx:49-56 | the upsert body has exactly the keys `name`, `email`, `photoURL`, never `role` |
| `Auth.StepKeepsConsistent` | src/Context/FirebaseAutheContext.jsx:24-96 | every entry point and notification keeps the session consistent: a role is never empty, and once settled there is a role exactly when there is a user |
| `Auth.NotificationSettles` | src/Context/FirebaseAutheContext.jsx:85-96 | after a notification, loading is false and the user is the notified one; a null user leaves no role; a user gets the resolved role; previous state and upsert outcome do not matter |
| `Auth.SignOutClearsRole` | src/Context/FirebaseAutheContext.jsx:42-46 | sign-out raises loading and clears the role, leaving the user |
| `Auth.Run` | src/Context/FirebaseAutheContext.jsx:19-21 | from the initial state, any sequence of events leaves a consistent session |
| `Auth.AdminRoleComesFromBackend` | src/Context/FirebaseAutheContext.jsx:64-96 | a session whose role is `'admin'` had a notification whose lookup returned a successful `'admin'` |
| `Auth.AuthProvider.constructor` | src/Context/FirebaseAutheContext.jsx:19-21 | no user, no role, loading |
| `Auth.AuthProvider.CreateUser` | src/Context/FirebaseAutheContext.jsx:24-27 | only `loading` changes, to true |
| `Auth.AuthProvider.GoogleSignIn` | src/Context/FirebaseAutheContext.jsx:30-33 | only `loading` changes, to true |
| `Auth.AuthProvider.LogInUser` | src/Context/FirebaseAutheContext.jsx:36-39 | only `loading` changes, to true |
| `Auth.AuthProvider.SignOutUser` | src/Context/FirebaseAutheContext.jsx:42-46 | `loading` true and `role` null; `user` unchanged |
| `Auth.AuthProvider.SaveUserToBackend` | src/Context/FirebaseAutheContext.jsx:49-61 | posts exactly the upsert body and changes no state |
| `Auth.AuthProvider.FetchUserRole` | src/Context/FirebaseAutheContext.jsx:64-81 | the role becomes the resolved role of the reply |
| `Auth.AuthProvider.OnAuthStateChanged` | src/Context/FirebaseAutheContext.jsx:84-96 | loading on entry, not loading on completion; the new state is the notification step; a signed-in user's body is posted |
| `DashboardLayout.Redirect` | src/layouts/Dashboard.jsx:30-38 | no navigation while loading; `/login` without a user; no navigation without a role; on exactly `/dashboard`, admin home iff role is `"admin"`, user home for any other role |
| `DashboardLayout.SettledSessionReachesHome` | src/layouts/Dashboard.jsx:31-37 | once a consistent session has settled with a user, `/dashboard` always redirects to a home page |
| `DashboardLayout.AdminHomeNeedsBackendAdmin` | src/layouts/Dashboard.jsx:17-37 | the admin home is chosen only after a backend lookup returned `'admin'` |
| `DashboardLayout.NavItems` | src/layouts/Dashboard.jsx:40-62 | the admin list iff the role is `"admin"`, the user list otherwise |
| `DashboardLayout.FindByPath` | src/layouts/Dashboard.jsx:65 | the first item whose path is the pathname, or none exactly when no item has it |
| `DashboardLayout.PageTitle` | src/layouts/Dashboard.jsx:64-67 | the name of the first item whose path is the pathname, or `"Dashboard"` when none has it |
| `DashboardLayout.PageTitleOfFirstMatch` | src/layouts/Dashboard.jsx:64-67 | the title is the name of item `k` when `k` is the first item with the pathname |
| `DashboardLayout.AdminUsersPageTitle` | src/layouts/Dashboard.jsx:41-67 | an admin on `/dashboard/users` sees "Users" |
| `DashboardLayout.UserUsersPageTitle` | src/layouts/Dashboard.jsx:53-67 | a user on `/dashboard/users` sees "Dashboard" |

## Left out

- Rendering (JSX, Tailwind classes, icons) is left out. `getPriorityInfo` and `getCategoryColor` return the branch taken, not markup.
  In the code, `'maintenance'` and the default branch of `getCategoryColor` produce the same class string (Notice.jsx:52, 55).
- The map components (`RouteMap`, the Leaflet map and the location page) are left out: they only draw.
- `ScheduleForm.ScheduleModal.HandleCoordinateChange`: takes the number already parsed; `parseFloat(value) || 0` is floating-point text parsing and is not modelled, and coordinates are exact reals, not doubles.
- `ScheduleList.ScheduleBoard.AddSchedule`: the id `Date.now()` is the parameter `now`; the clock is not modelled, and ids are not shown unique.
- `ScheduleList.ScheduleBoard.DeleteSchedule`: the answer of `window.confirm` is the parameter `confirmed`.
- The `required` attributes of the form inputs (browser-side validation before submit) are not modelled; `HandleSubmit` accepts any form.
- `ScheduleList.ScheduleBoard.SetEditing`: the modal's effect compares its `schedule` prop by object identity; the model compares schedules by value, so re-selecting an equal but distinct schedule object does not reload the form in the model.
- `ScheduleList.ScheduleBoard.LoadSchedules`: the mock schedule table of the mount effect is a parameter, not a constant of the model.
- The search-box and drop-down state (`searchTerm`, `filterRoute`, `selectedCategory`) are left out as state. They are parameters of the filter functions.
- The notice fetch (`axios.get('/notices')`) is I/O and is left out; the notices are a parameter.
- `Text.Lower`: `toLowerCase` is modelled on ASCII letters only; Unicode case mapping is not modelled.
- The identity-provider SDK calls (`createUserWithEmailAndPassword`, `signInWithPopup`, `signInWithEmailAndPassword`, `signOut`) are not modelled; their returned promises and errors are the caller's.
- The network calls behind `saveUserToBackend` and `fetchUserRole` are not modelled. Their results are the inputs `UpsertOutcome` and `RoleReply`; `RoleReply.Failure` stands for a network error, an unreadable body or a thrown exception.
- `Auth.AuthProvider.OnAuthStateChanged`: each notification is one uninterrupted step. The model does not cover overlapping notifications, or a sign-out that lands while a role lookup is pending. The code has no guard for either, so a late lookup can still set a role after sign-out; that interleaving is not modelled.
- `Auth.Identity`: the email is taken to be a string; a provider user without an email is not modelled.
- The JSON `success` flag and `user.role` are modelled as a boolean and an optional string; other JSON types are not.
- The dashboard's `handleLogout` (sign out, then navigate to `/login`) is not modelled beyond `SignOutUser`. The `loading` placeholder render is not modelled either.
- The fetch-and-display pages (bus applications, my applications, users, add notice, borrow bus) are REST plumbing and are left out. So are the login and register forms, whose validation lives in a library, and the router, entry point, navbar and user home, which are wiring and static markup.
