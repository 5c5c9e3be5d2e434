# Attendance and payroll web app: verified model of the core logic

The application is a React front end over a hosted Postgres backend. It serves two audiences:
administrators (`admin`), who manage users, departments, positions, payments and attendance,
and employees (`karyawan`), who check in and review their own history. Most of the code is
rendering and remote queries. This project models the deterministic logic in between, in Dafny,
and proves what it guarantees:

- **Route admission** (`Routing`, from `src/App.tsx`). The decision *(session present?, role,
  path) → render a page or redirect* is a pure function. The root component's `session`,
  `loading` and `userRole` fields are a class whose methods are the session and role callbacks.
- **Per-page role gates** (`AccessGate`, `RoleDashboard`). These are the `checkAccess` decision
  shared by the user-management and admin-dashboard pages, and the role dispatch of the
  dashboard page, which fails open to the employee dashboard.
- **User management** (`UserManagement`, from `src/pages/UserManagement.jsx`). It covers the
  search and filter predicate, the count statistics, the edit form's defaults, save and delete,
  and the CSV export.
- **Admin dashboard aggregation** (`AdminPanel`, from `src/pages/AdminPanel.jsx`). It covers
  the headline counts and sums, the seven-day chart, and the per-department grouping (a loop
  over a map accumulator). It also covers the top-performer ranking (a loop over a per-user
  accumulator, then a stable sort and a cut to five) and the alert merge with its severity
  thresholds.
- **Admin sidebar** (`Sidebar`, from `src/app/admin/components/AdminSidebar.jsx`). This is the
  expand/collapse list of submenu titles, the active flags, the collapsed and mobile-open
  flags, link clicks and the logout sequence.
- **Activity log** (`ActivityLog`, from `src/app/employee/pages/ActivityLog.jsx`). This is the
  label formatter for an activity's `action_type`, and the fetch effect that fills the list.

Remote calls are parameters:

- An awaited call that may throw is `JsValues.Outcome` (`Ok(value)` or `Threw(message)`).
- A field or query result that may be null is `JsValues.Option`.
- JavaScript's `x || default` on falsy values is `OrElse`, `OrZero` or `OrEmpty`.

Dates are day numbers or opaque strings, and the window width is a parameter.

In a few places the code does something other than what a reader might expect of such an
application. The model follows the code:

- A signed-in user whose role is null or unrecognised is redirected to `/`, not to `/login`.
  Because `/` is not mounted for such a role, the redirect leads back to itself
  (`RedirectCyclesForUnrecognisedRole`).
- A role lookup that fails leaves the previous role in place.
- A role result that arrives after a newer sign-in is still applied. The code has no
  last-session-wins guarantee (`LateRoleResultIsApplied` walks through such a sequence).
- The sidebar has eight distinct paths: `/admin` plus seven children.
- The `/dashboard` target of the per-page gates is not a route of the application root. It
  falls to the catch-all (`DashboardIsNotARoute`, `TurnedAwayLandsOnEmployeeHome`).
- An activity whose `action_type` is null makes the activity list's render throw
  (`RenderLabels`).

## Model

| member | source | states |
|---|---|---|
| JsValues.OrElse | src/pages/UserManagement.jsx:286-300 | `x \|\| d` for strings: the value when present and non-empty, otherwise the default |
| JsValues.OrZero | src/pages/UserManagement.jsx:294 | `x \|\| 0` for numbers: the value when present (0 stays 0), otherwise 0 |
| Routing.Admit | src/App.tsx:92-118 | `/login` and `/register` render exactly when there is no session; an admin page renders only when the admin tree is mounted (session and role `admin`), an employee page only when the employee tree is mounted (session and role `karyawan`); every redirect goes to `/login` without a session, otherwise to `/admin` for an admin and `/` for anyone else |
| Routing.Home | src/App.tsx:92-93 | a signed-in user's home is `/admin` exactly for role `admin`, and `/` for every other role, null included |
| Routing.Show | src/App.tsx:80-118 | the placeholder exactly while loading, otherwise the route table's decision |
| Routing.AdminTreeExactly | src/App.tsx:95-106 | the admin tree matches exactly `/admin` and its seven children |
| Routing.EmployeeTreeExactly | src/App.tsx:108-116 | the employee tree matches exactly `/` and its four children |
| Routing.SignedOutAdmission | src/App.tsx:92-118 | without a session only `/login` and `/register` render; every other path, any `/admin` path included, redirects to `/login` |
| Routing.AdminAdmission | src/App.tsx:92-118 | for an admin, a path renders exactly when it is in the admin tree; every other path, `/login` and `/register` included, redirects to `/admin` |
| Routing.EmployeeAdmission | src/App.tsx:92-118 | for an employee, a path renders exactly when it is in the employee tree; every other path, any `/admin` path included, redirects to `/` |
| Routing.UnrecognisedRoleAdmission | src/App.tsx:92-118 | with a session and a null or unrecognised role, every path redirects to `/` |
| Routing.TreesExclusive | src/App.tsx:95-116 | the two trees are never mounted together, and neither without a session |
| Routing.NothingProtectedWithoutSession | src/App.tsx:92-118 | without a session, only the login and registration pages can render |
| Routing.RedirectSettles | src/App.tsx:92-118 | for a signed-out user, an admin or an employee, the redirect target renders a page |
| Routing.RedirectCyclesForUnrecognisedRole | src/App.tsx:108-118 | for any other role the redirect target redirects to itself |
| Routing.DashboardIsNotARoute | src/App.tsx:118 | `/dashboard` falls to the catch-all |
| Routing.AppContent.constructor | src/App.tsx:39-41 | no session, loading, no role |
| Routing.AppContent.Current | src/App.tsx:80-88 | only the placeholder while loading |
| Routing.AppContent.OnInitialSession | src/App.tsx:45-52 | stores the session, starts a lookup when there is one, and ends loading regardless of the role |
| Routing.AppContent.OnAuthStateChange | src/App.tsx:54-61 | stores the session; with one, starts a lookup and keeps the role; without one, clears the role |
| Routing.AppContent.OnRoleLookup | src/App.tsx:66-78 | a lookup that succeeds sets the role to the returned value, whichever session is current; one that fails leaves the role unchanged |
| AccessGate.Gate | src/pages/UserManagement.jsx:104-138 | admits exactly a signed-in user whose profile has role `admin`, with that user's id |
| AccessGate.GateOutcomes | src/pages/AdminPanel.jsx:70-106 | no user or a thrown error goes to `/login`; a missing profile or any other role goes to `/dashboard` |
| AccessGate.TurnedAwayLandsOnEmployeeHome | src/pages/UserManagement.jsx:118-120 | a non-admin sent to `/dashboard` is redirected to `/` by the application root |
| RoleDashboard.Choose | src/pages/Dashboard.jsx:32-47 | the placeholder exactly while loading; afterwards the admin dashboard exactly for role `admin` |
| RoleDashboard.FailsOpenToEmployee | src/pages/Dashboard.jsx:47 | every other role, null included, gets the employee dashboard |
| RoleDashboard.DashboardPage.constructor | src/pages/Dashboard.jsx:7-8 | no role, loading |
| RoleDashboard.DashboardPage.View | src/pages/Dashboard.jsx:32-45 | only the placeholder while loading |
| RoleDashboard.DashboardPage.FetchUserRole | src/pages/Dashboard.jsx:10-29 | loading ends on every path; the role is set only when there is a user and a lookup that succeeds, otherwise it is unchanged |
| RoleDashboard.Mount | src/pages/Dashboard.jsx:10-47 | after mount the admin dashboard renders exactly when a signed-in user's lookup returned `admin`; no user or a failed lookup gives the employee dashboard |
| ActivityLog.Upper | src/app/employee/pages/ActivityLog.jsx:49 | a lower-case letter becomes its own capital (code point − 32), every other character is kept, and a word character stays a word character |
| ActivityLog.SpaceUnderscoresAt | src/app/employee/pages/ActivityLog.jsx:49 | the first pass keeps the length and replaces each `_` by a space |
| ActivityLog.CapitalizeWordsAt | src/app/employee/pages/ActivityLog.jsx:49 | the second pass keeps the length and upper-cases exactly the word characters that follow a non-word character or the start |
| ActivityLog.LabelAt | src/app/employee/pages/ActivityLog.jsx:49 | the label has the length of `action_type`; each position is the underscore-free character, upper-cased exactly when it starts a word |
| ActivityLog.Label | src/app/employee/pages/ActivityLog.jsx:49 | the label has the same length as `action_type` and contains no `_` |
| ActivityLog.LetterAfterDigitUntouched | src/app/employee/pages/ActivityLog.jsx:49 | a character right after a digit keeps its case |
| ActivityLog.LabelIdempotent | src/app/employee/pages/ActivityLog.jsx:49 | formatting a label again returns it unchanged |
| ActivityLog.ActivityLogPage.constructor | src/app/employee/pages/ActivityLog.jsx:6-7 | empty list, loading |
| ActivityLog.ActivityLogPage.FetchActivities | src/app/employee/pages/ActivityLog.jsx:9-29 | loading ends on every path; the list is replaced only when there is a user and a query that succeeds |
| ActivityLog.RenderLabels | src/app/employee/pages/ActivityLog.jsx:41-49 | the list renders exactly when no `action_type` is null, one underscore-free label per activity in order; otherwise the render throws on `.replace` of null |
| ActivityLog.Mount | src/app/employee/pages/ActivityLog.jsx:6-29 | after mount loading has ended; with no user or a query that throws, the list is empty; otherwise it is the query's rows |
| Sidebar.AtMostOneActive | src/app/admin/components/AdminSidebar.jsx:61-130 | the menu has eight links with pairwise distinct paths, so at most one is active for any pathname |
| Sidebar.WithoutMembers | src/app/admin/components/AdminSidebar.jsx:56 | the filter keeps exactly the other titles |
| Sidebar.Toggle | src/app/admin/components/AdminSidebar.jsx:53-59 | the toggled title's membership flips, and every other title keeps its membership |
| Sidebar.ToggleEffect | src/app/admin/components/AdminSidebar.jsx:53-59 | a present title is removed everywhere; an absent one is appended at the end |
| Sidebar.ToggleKeepsOthers | src/app/admin/components/AdminSidebar.jsx:53-59 | every other title keeps its membership, and the others keep their order |
| Sidebar.ToggleTwice | src/app/admin/components/AdminSidebar.jsx:53-59 | toggling twice restores the title's membership, and restores the list exactly when the title was absent |
| Sidebar.ToggleOtherTitles | src/app/admin/components/AdminSidebar.jsx:53-59 | toggles of two different titles commute as far as membership goes |
| Sidebar.ShownLinksExactly | src/app/admin/components/AdminSidebar.jsx:275 | a link is shown exactly when it is a top-level link, or when it belongs to a group whose title is expanded and the sidebar is not collapsed |
| Sidebar.AllOpenShowsAll | src/app/admin/components/AdminSidebar.jsx:275 | with the sidebar open and every group expanded, all links are shown in menu order |
| Sidebar.CollapsedShowsOnlyTopLevel | src/app/admin/components/AdminSidebar.jsx:275 | a collapsed sidebar shows only the top-level links |
| Sidebar.SidebarState.constructor | src/app/admin/components/AdminSidebar.jsx:33-35 | not collapsed, mobile menu closed, expanded list exactly `['Master Data']` |
| Sidebar.SidebarState.ToggleSubmenu | src/app/admin/components/AdminSidebar.jsx:53-59 | the expanded list becomes its toggle; the flags are unchanged |
| Sidebar.SidebarState.ToggleCollapsed | src/app/admin/components/AdminSidebar.jsx:189 | flips the collapsed flag only |
| Sidebar.SidebarState.ToggleMobileOpen | src/app/admin/components/AdminSidebar.jsx:137 | flips the mobile-open flag only |
| Sidebar.SidebarState.CloseMobile | src/app/admin/components/AdminSidebar.jsx:149 | closes the mobile menu only |
| Sidebar.SidebarState.FollowLink | src/app/admin/components/AdminSidebar.jsx:280-283 | navigates to the link's path, and closes the mobile menu exactly when the window is narrower than 1024 |
| Sidebar.InitialShownLinks | src/app/admin/components/AdminSidebar.jsx:35 | a fresh sidebar shows every menu link in order |
| Sidebar.HandleLogout | src/app/admin/components/AdminSidebar.jsx:37-51 | navigates, and only to `/login`, exactly when sign-out and the confirmation both complete |
| UserManagement.Lower | src/pages/UserManagement.jsx:396 | lower-casing keeps the length, turns each capital into its own lower-case letter (code point + 32), keeps every other character and leaves no capital |
| UserManagement.LowerIdempotent | src/pages/UserManagement.jsx:396 | lower-casing twice is lower-casing once |
| UserManagement.Includes | src/pages/UserManagement.jsx:396-398 | the empty needle is always found, and a needle longer than the text never |
| UserManagement.IncludesIff | src/pages/UserManagement.jsx:396-398 | `includes` holds exactly when the needle occurs at some position |
| UserManagement.FilterUsers | src/pages/UserManagement.jsx:394-405 | never longer than the list, and every listed user is in the list and passes |
| UserManagement.FilterUsersSpec | src/pages/UserManagement.jsx:394-405 | a user is listed exactly when it is in `users` and passes; the list is an order-preserving subsequence of `users` |
| UserManagement.PassesIff | src/pages/UserManagement.jsx:394-405 | the search term occurs, ignoring case, in a present name, email or employee id, and each non-empty filter equals the user's field |
| UserManagement.EmptyQueryKeepsIdentifiable | src/pages/UserManagement.jsx:394-405 | with an empty search and no filters, exactly the users with a name, email or employee id are listed |
| UserManagement.Count | src/pages/UserManagement.jsx:159-162 | a count never exceeds the number of users |
| UserManagement.CountsPartition | src/pages/UserManagement.jsx:158-162 | every user is counted as active or inactive, and as admin, employee or another role, exactly once |
| UserManagement.ComputeStats | src/pages/UserManagement.jsx:158-164 | the total is the number of users; active, inactive, admins and employees are the counts of users with that status or role; active plus inactive is the total; admins plus employees plus the users with any other role is the total, so admins plus employees is at most the total |
| UserManagement.DefaultForm | src/pages/UserManagement.jsx:226-243 | empty strings, role `karyawan`, status `active`, contract `permanent`, salary 0, today's join date |
| UserManagement.FormFromUser | src/pages/UserManagement.jsx:284-301 | the copied form never has an empty role, status or contract type, and an empty join date only when today's date is empty |
| UserManagement.FormFromUserFields | src/pages/UserManagement.jsx:284-301 | each present, non-empty field is copied; a missing or empty one takes the reset default |
| UserManagement.BlankUserGivesDefaults | src/pages/UserManagement.jsx:284-301 | a user with no field set gives exactly the reset form |
| UserManagement.ApplyUpdate | src/pages/UserManagement.jsx:257-263 | only rows whose id matches change, and they take the form's columns |
| UserManagement.UpdateRoundTrip | src/pages/UserManagement.jsx:257-301 | an updated row keeps its id, and editing it again yields the saved form whenever its role, status, join date and contract type are set; empty text fields and a zero salary come back unchanged |
| UserManagement.UpdateReadsBackDefaults | src/pages/UserManagement.jsx:257-301 | editing a saved row again yields the saved form, except that an emptied role, status, join date or contract type comes back as `karyawan`, `active`, today's date or `permanent` |
| UserManagement.DeleteRows | src/pages/UserManagement.jsx:311-314 | exactly the rows with another id remain |
| UserManagement.CsvRow | src/pages/UserManagement.jsx:347-355 | seven fields per user |
| UserManagement.CsvRows | src/pages/UserManagement.jsx:345-355 | the header row first, then one seven-field row per listed user, in order |
| UserManagement.SplitJoin | src/pages/UserManagement.jsx:356 | joining fields that are free of the separator and splitting again gives the fields back |
| UserManagement.ExportCsv | src/pages/UserManagement.jsx:338-356 | nothing is produced exactly for an empty list |
| UserManagement.CsvRoundTrip | src/pages/UserManagement.jsx:338-356 | when no field holds `,` or a line break, the file reads back as exactly the header and user rows |
| UserManagement.CommaInFieldShiftsColumns | src/pages/UserManagement.jsx:356 | without quoting, a field `a,b` reads back as the two fields `a` and `b`, and every later field moves one column right |
| UserManagement.UserManagementPage.constructor | src/pages/UserManagement.jsx:82-98 | loading, empty list and counts, no filters, no modal, the default form |
| UserManagement.UserManagementPage.FetchUsers | src/pages/UserManagement.jsx:140-171 | on success, the list and counts come from the fetched users; on a throw, the list is kept and the load error is set; the loading flag ends false |
| UserManagement.UserManagementPage.CheckAccess | src/pages/UserManagement.jsx:104-138 | loading ends on every path; a redirected visitor leaves every other field unchanged; an admitted admin is recorded and gets the fetched list and counts, or the load error with the list kept; the filters, modal, form and messages are unchanged |
| UserManagement.UserManagementPage.ResetForm | src/pages/UserManagement.jsx:226-247 | default form, nothing edited, modal closed, error cleared, nothing else changed |
| UserManagement.UserManagementPage.HandleEdit | src/pages/UserManagement.jsx:284-304 | the form is the copied user, which becomes the edited user, and the modal opens |
| UserManagement.UserManagementPage.HandleSubmit | src/pages/UserManagement.jsx:249-282 | with no user being edited, only the registration error is set; otherwise it writes the form to the edited id; a failure shows the message and keeps the form, modal, list, counts and success message; a success resets the form and closes the modal, then shows the refetched list and its counts or the load error; loading, user and filters never change |
| UserManagement.UserManagementPage.HandleDelete | src/pages/UserManagement.jsx:306-326 | a refusal changes nothing at all; otherwise it deletes the id, and a failure shows the message keeping list, counts and success message, while a success shows the success message and the refetched list and counts or the load error; the form, modal, filters, loading and user never change |
| UserManagement.EditThenSave | src/pages/UserManagement.jsx:249-304 | editing a user and saving writes its copied form to that user's rows, and to no other |
| AdminPanel.TotalSalaryPaidIsCompletedSum | src/pages/AdminPanel.jsx:143-144 | the fold equals the sum of the amounts of the completed payments (a missing amount is 0); other statuses add nothing |
| AdminPanel.PendingCountsExactly | src/pages/AdminPanel.jsx:145-146 | a payment adds to the pending count exactly when its status is `pending` or `processing` |
| AdminPanel.LateWithinCheckIns | src/pages/AdminPanel.jsx:147 | late check-ins never exceed check-ins |
| AdminPanel.RoundPercentBounds | src/pages/AdminPanel.jsx:149 | half-up rounding of a fraction in [0, 1] lies in 0..100, with 0 and 100 exact at the ends |
| AdminPanel.ComputeStats | src/pages/AdminPanel.jsx:139-162 | total and active employees are the employee count and its active ones; today's and the month's attendance are their check-in counts, late the late check-ins of today; pending payments are the pending count; late ≤ check-ins; on-time percentage 100 with no check-ins and in 0..100 otherwise; absent = active − check-ins, unclamped; active ≤ total; the salary total is the completed sum |
| AdminPanel.AbsentCanBeNegative | src/pages/AdminPanel.jsx:160 | with no active employee and one check-in, the absent count is −1 |
| AdminPanel.AttendanceChart | src/pages/AdminPanel.jsx:186-220 | exactly seven bars, oldest day first; bar i counts the check-ins of day today − 6 + i and its late ones, and on-time plus late equals the check-ins, on-time never negative |
| AdminPanel.DistinctSpec | src/pages/AdminPanel.jsx:236-238 | the accumulator's keys are exactly the values that occur, each once |
| AdminPanel.CountsCoverAll | src/pages/AdminPanel.jsx:230-234 | the occurrence counts of the distinct values sum to the number of values |
| AdminPanel.GroupDepartments | src/pages/AdminPanel.jsx:222-247 | one entry per department (a missing one counts as `Tidak Ada`) in first-seen order, each with its employee count and colour i mod 6; names are distinct, every department appears, and the counts sum to the number of employees |
| AdminPanel.CountMapAt | src/pages/AdminPanel.jsx:230-234 | the counts have a key exactly for each department that occurs, holding its number of employees |
| AdminPanel.CountDepartments | src/pages/AdminPanel.jsx:230-234 | the loop builds exactly the reference counts, with its keys in first-seen order |
| AdminPanel.GroupingCountsEachOnce | src/pages/AdminPanel.jsx:230-234 | the per-department counts sum to the number of employees |
| AdminPanel.GroupingCoversEachDepartment | src/pages/AdminPanel.jsx:230-241 | every department has an entry, and no department has two |
| AdminPanel.TallyMapAt | src/pages/AdminPanel.jsx:264-278 | the accumulator has a key exactly for each user with a check-in, holding that user's first profile, check-in count and on-time count |
| AdminPanel.TallyCheckIns | src/pages/AdminPanel.jsx:264-278 | the loop builds exactly the reference accumulator, with its keys in first-check-in order |
| AdminPanel.SortByPercentage | src/pages/AdminPanel.jsx:287 | the sort is a permutation: same length, same multiset of entries |
| AdminPanel.SortSpec | src/pages/AdminPanel.jsx:287 | the result is non-increasing by percentage, and distinct users stay distinct |
| AdminPanel.RankedSpec | src/pages/AdminPanel.jsx:287-288 | min(5, entries) entries, non-increasing, all from the input; distinct users stay distinct |
| AdminPanel.FromTally | src/pages/AdminPanel.jsx:280-286 | one entry per accumulator key |
| AdminPanel.FromTallyEntries | src/pages/AdminPanel.jsx:280-286 | each entry carries its user's first profile, rounded on-time percentage and day count; the users are distinct |
| AdminPanel.RankedKeepsBest | src/pages/AdminPanel.jsx:287-288 | no entry cut off by the slice has a higher percentage than one that was kept |
| AdminPanel.RankingSpec | src/pages/AdminPanel.jsx:280-288 | the ranking of all users has min(5, users) entries, sorted and distinct, each its user's figures; no user left out beats one shown |
| AdminPanel.TopPerformers | src/pages/AdminPanel.jsx:249-294 | min(5, distinct users) entries, one per user, sorted by on-time percentage non-increasing, each with that user's figures; a user left out beats no one shown |
| AdminPanel.PerformerFigures | src/pages/AdminPanel.jsx:264-283 | every ranked user has at least one day, on-time days ≤ days, and a percentage in 0..100 |
| AdminPanel.LateSeverity | src/pages/AdminPanel.jsx:333 | the severity is between 1 and 3 |
| AdminPanel.LateSeverityMonotone | src/pages/AdminPanel.jsx:333 | a later arrival is never a lower severity |
| AdminPanel.MergeAlerts | src/pages/AdminPanel.jsx:320-335 | min(5, warnings + lates) alerts; no warning follows a late entry; warnings keep their order and level, and late entries keep their order, each with its minute-based severity |
| AdminPanel.LateTone | src/pages/AdminPanel.jsx:351-357 | a late alert is red exactly above 30 minutes, orange above 15 and yellow otherwise |
| AdminPanel.AdminPanelPage.constructor | src/pages/AdminPanel.jsx:45-64 | loading, zero statistics, empty lists |
| AdminPanel.AdminPanelPage.Load | src/pages/AdminPanel.jsx:92-99 | the page shows exactly the statistics, recent activity, chart, alerts computed from the query results, the department entries and the top five of the month's check-ins |
| AdminPanel.AdminPanelPage.CheckAccess | src/pages/AdminPanel.jsx:70-106 | loading always ends; a redirected visitor leaves every dashboard field unchanged; an admitted admin is recorded and the page shows what the queries returned |

## Left out

- Remote calls (authentication, table queries, updates and deletes) are parameters. The
  server-side filters of the queries (date ranges, `status = 'berhasil'`, `neq('role', 'admin')`,
  `limit`, `order`) are not re-verified. Each query result is taken as given.
- The concurrency of `Promise.all`, and the unawaited role lookups in the application root,
  are not modelled. Each settled result is applied as a separate event in some order.
- The unsubscribe of the auth subscription on unmount is not modelled.
- A fetch on the admin dashboard that throws only logs, leaving its part of the page unchanged.
  The model takes each query's rows as `Option` and does not model that throw.
- `fetchPositions`, `fetchDepartments`, `fetchBanks`, and the profile and warning modals are
  not modelled. They feed only drop-downs and rendering.
- UserManagement.UpdatedRow omits the `updated_at` column that a save also writes, because
  clock time is not modelled.
- Floating point is not modelled. `avgWorkHours` and `avgHours` are left out, and `Math.round`
  percentages use exact integer half-up rounding.
- Dates and locale are not modelled. The seven chart days are day numbers, today's date is an
  opaque string, and `toLocaleDateString`, `toLocaleTimeString` and `Intl.NumberFormat` are left
  out.
- Alert titles, message texts and times are left out. Only each alert's kind, subject name and
  severity are kept.
- DOM effects are not modelled:
  - the Blob download of the CSV;
  - `confirm`, which is a boolean parameter;
  - the three-second clearing of success messages;
  - the logout dialog, which is an outcome parameter;
  - `window.innerWidth`, which is a parameter;
  - rendering, and icon or colour tables other than the department palette and
    `getAlertColor`.
- `src/pages/AdminDashboard.jsx` and `src/components/layouts/AdminLayout.jsx` are not part of
  this model. They hold links and layout only.
- The router's case-insensitive matching and trailing-slash handling are not modelled. Paths
  are taken as normalised pathnames.
- `toLowerCase` and `toUpperCase` are modelled on ASCII letters only.
- JavaScript orders integer-like object keys first. The model treats every key in insertion
  order.
- A department name such as `constructor`, `toString` or `__proto__` meets an inherited member
  of the plain object that the department reduce counts in. `constructor` gets a string as
  its count, and `__proto__` is dropped from the result. The model treats every name as a
  fresh key.
- AdminPanel.TopPerformers: the entry keeps its accumulator key `userId`, which the page does
  not display. Sort stability is not claimed, only sortedness, distinct users and the top-five
  property.
