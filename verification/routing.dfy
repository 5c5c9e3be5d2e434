/** The application root (`AppContent`): the route table that decides, from the session, the
    role and the requested path, whether a page renders or the router redirects; and the
    session/role/loading state that the authentication callbacks update. */
module Routing {
  import opened JsValues

  /** The pages that the route table can mount. */
  datatype Page =
    | Login | Register
      // the admin tree under /admin
    | AdminDashboard | UserManagement | DepartmentManagement | PositionManagement
    | SalaryPaymentManagement | LocationSettings | BankManagement | AttendanceManagementByDate
      // the employee tree under /
    | EmployeeDashboard | AttendanceForm | ProfileSetup | AttendanceHistory | ActivityLog

  /** What the router does with a path: mount a page, or navigate elsewhere. */
  datatype Routed = Render(page: Page) | Redirect(to: string)

  /** What the root component shows: the loading placeholder, or the router's decision. */
  datatype Screen = Placeholder | Routes(routed: Routed)

  /** The authenticated session; only the principal's id is used. */
  datatype Session = Session(userId: string)

  const AdminRole := "admin"
  const EmployeeRole := "karyawan"

  predicate IsAdminPage(p: Page) {
    p.AdminDashboard? || p.UserManagement? || p.DepartmentManagement? || p.PositionManagement?
    || p.SalaryPaymentManagement? || p.LocationSettings? || p.BankManagement?
    || p.AttendanceManagementByDate?
  }

  predicate IsEmployeePage(p: Page) {
    p.EmployeeDashboard? || p.AttendanceForm? || p.ProfileSetup? || p.AttendanceHistory?
    || p.ActivityLog?
  }

  /** The admin tree: `/admin` (index) and its seven children. */
  function AdminTree(path: string): (r: Option<Page>)
    ensures r.Some? ==> IsAdminPage(r.value)
  {
    if path == "/admin" then Some(AdminDashboard)
    else if path == "/admin/users" then Some(UserManagement)
    else if path == "/admin/departments" then Some(DepartmentManagement)
    else if path == "/admin/positions" then Some(PositionManagement)
    else if path == "/admin/salary-payment" then Some(SalaryPaymentManagement)
    else if path == "/admin/location" then Some(LocationSettings)
    else if path == "/admin/bank" then Some(BankManagement)
    else if path == "/admin/attendance" then Some(AttendanceManagementByDate)
    else None
  }

  /** The employee tree: `/` (index) and its four children. */
  function EmployeeTree(path: string): (r: Option<Page>)
    ensures r.Some? ==> IsEmployeePage(r.value)
  {
    if path == "/" then Some(EmployeeDashboard)
    else if path == "/attendance" then Some(AttendanceForm)
    else if path == "/profile" then Some(ProfileSetup)
    else if path == "/history" then Some(AttendanceHistory)
    else if path == "/activity" then Some(ActivityLog)
    else None
  }

  const AdminPaths: set<string> := {"/admin", "/admin/users", "/admin/departments",
    "/admin/positions", "/admin/salary-payment", "/admin/location", "/admin/bank",
    "/admin/attendance"}
  const EmployeePaths: set<string> := {"/", "/attendance", "/profile", "/history", "/activity"}

  /** The tree whose `<Route>` is present in the table. */
  predicate AdminTreeMounted(session: bool, role: Option<string>) {
    session && role == Some(AdminRole)
  }
  predicate EmployeeTreeMounted(session: bool, role: Option<string>) {
    session && role == Some(EmployeeRole)
  }

  /** Where a signed-in user is sent: `/admin` exactly for an admin, and `/` for any other
      role, a missing one included. */
  function Home(role: Option<string>): (home: string)
    ensures home == "/admin" || home == "/"
    ensures home == "/admin" <==> role == Some(AdminRole)
  {
    if role == Some(AdminRole) then "/admin" else "/"
  }

  /** The route table. `/login` and `/register` are matched first; then the mounted tree, if
      any; everything else falls to the catch-all `*`. */
  function Admit(session: bool, role: Option<string>, path: string): (r: Routed)
    ensures r.Render? ==> (r.page.Login? || r.page.Register?) == !session
    ensures r.Render? && IsAdminPage(r.page) ==> AdminTreeMounted(session, role)
    ensures r.Render? && IsEmployeePage(r.page) ==> EmployeeTreeMounted(session, role)
    ensures r.Redirect? ==> r.to == (if session then Home(role) else "/login")
  {
    if path == "/login" then
      if !session then Render(Login) else Redirect(Home(role))
    else if path == "/register" then
      if !session then Render(Register) else Redirect(Home(role))
    else if AdminTreeMounted(session, role) && AdminTree(path).Some? then
      Render(AdminTree(path).value)
    else if EmployeeTreeMounted(session, role) && EmployeeTree(path).Some? then
      Render(EmployeeTree(path).value)
    else
      Redirect(if !session then "/login" else Home(role))
  }

  /** The root component: nothing but the placeholder while loading. */
  function Show(loading: bool, session: Option<Session>, role: Option<string>, path: string): (s: Screen)
    ensures loading <==> s.Placeholder?
    ensures !loading ==> s == Routes(Admit(session.Some?, role, path))
  {
    if loading then Placeholder else Routes(Admit(session.Some?, role, path))
  }

  lemma AdminTreeExactly(path: string)
    ensures AdminTree(path).Some? <==> path in AdminPaths
  {
  }

  lemma EmployeeTreeExactly(path: string)
    ensures EmployeeTree(path).Some? <==> path in EmployeePaths
  {
  }

  /** Without a session only `/login` and `/register` render; every other path, any `/admin`
      path included, goes to `/login`. */
  lemma SignedOutAdmission(role: Option<string>, path: string)
    ensures path == "/login" ==> Admit(false, role, path) == Render(Login)
    ensures path == "/register" ==> Admit(false, role, path) == Render(Register)
    ensures path != "/login" && path != "/register" ==> Admit(false, role, path) == Redirect("/login")
  {
  }

  /** An admin sees exactly the admin tree; everything else, `/login` and `/register`
      included, goes to `/admin`. */
  lemma AdminAdmission(path: string)
    ensures Admit(true, Some(AdminRole), path).Render? <==> path in AdminPaths
    ensures path !in AdminPaths ==> Admit(true, Some(AdminRole), path) == Redirect("/admin")
    ensures path in AdminPaths ==> Admit(true, Some(AdminRole), path) == Render(AdminTree(path).value)
  {
    AdminTreeExactly(path);
  }

  /** An employee sees exactly the employee tree; everything else goes to `/`. */
  lemma EmployeeAdmission(path: string)
    ensures Admit(true, Some(EmployeeRole), path).Render? <==> path in EmployeePaths
    ensures path !in EmployeePaths ==> Admit(true, Some(EmployeeRole), path) == Redirect("/")
    ensures path in EmployeePaths ==> Admit(true, Some(EmployeeRole), path) == Render(EmployeeTree(path).value)
  {
    EmployeeTreeExactly(path);
  }

  /** A signed-in user whose role is null or neither `admin` nor `karyawan` (a `kepala`, say)
      sees no page at all: every path, `/` itself included, redirects to `/`. */
  lemma UnrecognisedRoleAdmission(role: Option<string>, path: string)
    requires role != Some(AdminRole) && role != Some(EmployeeRole)
    ensures Admit(true, role, path) == Redirect("/")
  {
  }

  /** The two trees are never mounted together, and neither without a session. */
  lemma TreesExclusive(session: bool, role: Option<string>)
    ensures !(AdminTreeMounted(session, role) && EmployeeTreeMounted(session, role))
    ensures !session ==> !AdminTreeMounted(session, role) && !EmployeeTreeMounted(session, role)
  {
  }

  /** No protected page renders without a session, whatever the role and path. */
  lemma NothingProtectedWithoutSession(role: Option<string>, path: string)
    ensures Admit(false, role, path).Render? ==> Admit(false, role, path).page in {Login, Register}
  {
  }

  /** For a signed-out user, an admin and an employee, the redirect target renders a page:
      following the redirect once settles. */
  lemma RedirectSettles(session: bool, role: Option<string>, path: string)
    requires !session || role == Some(AdminRole) || role == Some(EmployeeRole)
    ensures Admit(session, role, path).Redirect? ==>
      Admit(session, role, Admit(session, role, path).to).Render?
  {
  }

  /** For any other signed-in role the redirect target is itself a redirect to the same place:
      the catch-all sends `/` back to `/`, so no page is ever reached. */
  lemma RedirectCyclesForUnrecognisedRole(role: Option<string>, path: string)
    requires role != Some(AdminRole) && role != Some(EmployeeRole)
    ensures Admit(true, role, path) == Redirect("/")
    ensures Admit(true, role, Admit(true, role, path).to) == Admit(true, role, path)
  {
  }

  /** `/dashboard`, the target the per-page role gates use, is not a route: it falls to the
      catch-all. */
  lemma DashboardIsNotARoute(session: bool, role: Option<string>)
    ensures Admit(session, role, "/dashboard") ==
      Redirect(if !session then "/login" else Home(role))
  {
  }

  /** The application root's state: the fields that the session and role callbacks set. */
  class AppContent {
    var session: Option<Session>
    var loading: bool
    var userRole: Option<string>
    /** The ids for which a role lookup has been started, oldest first. Any of them may be the
        one that settles next: the root does not match a settled lookup against this list or
        against the current session, so the list only records what was started. */
    var lookups: seq<string>

    /** The state before the first session fetch has settled. */
    constructor ()
      ensures session == None && loading && userRole == None && lookups == []
    {
      session := None;
      loading := true;
      userRole := None;
      lookups := [];
    }

    /** What is on screen for a path. */
    function Current(path: string): (s: Screen)
      reads this
      ensures loading ==> s == Placeholder
    {
      Show(loading, session, userRole, path)
    }

    /** The initial `getSession` resolved: store the session, start a role lookup if there is
        one, and stop loading whatever the role. */
    method OnInitialSession(s: Option<Session>)
      modifies this
      ensures session == s && !loading && userRole == old(userRole)
      ensures lookups == old(lookups) + (if s.Some? then [s.value.userId] else [])
    {
      session := s;
      if s.Some? {
        lookups := lookups + [s.value.userId];
      }
      loading := false;
    }

    /** An auth-state change: store the session; with one, start a role lookup; without one,
        clear the role. */
    method OnAuthStateChange(s: Option<Session>)
      modifies this
      ensures session == s && loading == old(loading)
      ensures s.None? ==> userRole == None && lookups == old(lookups)
      ensures s.Some? ==> userRole == old(userRole) && lookups == old(lookups) + [s.value.userId]
    {
      session := s;
      if s.Some? {
        lookups := lookups + [s.value.userId];
      } else {
        userRole := None;
      }
    }

    /** A role lookup settled: any lookup started so far, in any order, with no staleness check.
        A row found sets the role, whatever session is current now; an error is only logged and
        leaves the old role in place. */
    method OnRoleLookup(result: Outcome<Option<string>>)
      modifies this
      ensures session == old(session) && loading == old(loading) && lookups == old(lookups)
      ensures result.Ok? ==> userRole == result.value
      ensures result.Threw? ==> userRole == old(userRole)
    {
      if result.Ok? {
        userRole := result.value;
      }
    }
  }

  /** Two sign-ins in a row, then the first lookup settles late: its role is applied to the
      second session, and a failing second lookup leaves it there. */
  method LateRoleResultIsApplied()
  {
    var app := new AppContent();
    assert app.Current("/admin") == Placeholder;
    app.OnInitialSession(None);
    assert app.Current("/admin") == Routes(Redirect("/login"));
    app.OnAuthStateChange(Some(Session("a")));
    app.OnAuthStateChange(Some(Session("b")));
    assert app.lookups == ["a", "b"];
    app.OnRoleLookup(Ok(Some(AdminRole)));
    app.OnRoleLookup(Threw("row not found"));
    assert app.session == Some(Session("b")) && app.userRole == Some(AdminRole);
    assert app.Current("/admin/users") == Routes(Render(UserManagement));
    app.OnAuthStateChange(None);
    assert app.Current("/admin/users") == Routes(Redirect("/login"));
  }
}
