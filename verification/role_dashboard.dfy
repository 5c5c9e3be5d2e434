/** The role-dispatching dashboard page: one role lookup on mount, then the admin dashboard
    for an admin and the employee dashboard for anything else. */
module RoleDashboard {
  import opened JsValues

  datatype DashboardView = Loading | AdminView | EmployeeView

  /** The page's output: the placeholder while loading, then the choice by role. */
  function Choose(loading: bool, role: Option<string>): (v: DashboardView)
    ensures loading <==> v.Loading?
    ensures !loading ==> (v.AdminView? <==> role == Some("admin"))
  {
    if loading then Loading
    else if role == Some("admin") then AdminView
    else EmployeeView
  }

  /** Every role but `admin`, a missing one included, gets the employee dashboard. */
  lemma FailsOpenToEmployee(role: Option<string>)
    requires role != Some("admin")
    ensures Choose(false, role) == EmployeeView
  {
  }

  class DashboardPage {
    var userRole: Option<string>
    var loading: bool

    constructor ()
      ensures userRole == None && loading
    {
      userRole := None;
      loading := true;
    }

    function View(): (v: DashboardView)
      reads this
      ensures loading ==> v == Loading
    {
      Choose(loading, userRole)
    }

    /** The mount effect. `user` is what `getUser` settled to, `lookup` the profile query for
        that user (consulted only when there is a user). Loading ends on every path. */
    method FetchUserRole(user: Outcome<Option<string>>, lookup: Outcome<Option<string>>)
      modifies this
      ensures !loading
      ensures user.Ok? && user.value.Some? && lookup.Ok? ==> userRole == lookup.value
      ensures !(user.Ok? && user.value.Some? && lookup.Ok?) ==> userRole == old(userRole)
    {
      if user.Ok? {
        if user.value.Some? {
          if lookup.Ok? {
            userRole := lookup.value;
          }
        }
      }
      loading := false;
    }
  }

  /** A fresh page through its mount effect: the admin dashboard exactly when a signed-in user's
      lookup returned the role `admin`; with no user, or a lookup that threw, the role stays
      null and the page fails open to the employee dashboard. */
  method Mount(user: Outcome<Option<string>>, lookup: Outcome<Option<string>>) returns (v: DashboardView)
    ensures v != Loading
    ensures v == AdminView <==> user.Ok? && user.value.Some? && lookup == Ok(Some("admin"))
  {
    var page := new DashboardPage();
    page.FetchUserRole(user, lookup);
    v := page.View();
  }
}
