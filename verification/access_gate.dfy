/** The role gate that the admin pages run on mount (`checkAccess`): a signed-in user whose
    profile has the role `admin` is let in; anyone else is sent away. */
module AccessGate {
  import opened JsValues
  import Routing

  /** The profile row of the signed-in user; only its role is consulted. */
  datatype Profile = Profile(role: Option<string>)

  /** Let in (with the user's id), or navigate elsewhere. */
  datatype Decision = Admitted(userId: string) | NavigateTo(path: string)

  /** `user` is what `getUser` settled to; `profile` the profile query for that user, whose row
      is null when the query failed without throwing. */
  function Gate(user: Outcome<Option<string>>, profile: Outcome<Option<Profile>>): (d: Decision)
    ensures d.Admitted? <==>
      user.Ok? && user.value.Some? && profile.Ok? && profile.value.Some?
      && profile.value.value.role == Some("admin")
    ensures d.Admitted? ==> d.userId == user.value.value
  {
    if user.Threw? then NavigateTo("/login")
    else if user.value.None? then NavigateTo("/login")
    else if profile.Threw? then NavigateTo("/login")
    else if profile.value.None? || profile.value.value.role != Some("admin") then NavigateTo("/dashboard")
    else Admitted(user.value.value)
  }

  /** No user, or a thrown error, sends to `/login`; a missing profile or any role but `admin`
      sends to `/dashboard`. */
  lemma GateOutcomes(user: Outcome<Option<string>>, profile: Outcome<Option<Profile>>)
    ensures user.Threw? || user.value.None? ==> Gate(user, profile) == NavigateTo("/login")
    ensures user.Ok? && user.value.Some? && profile.Threw? ==> Gate(user, profile) == NavigateTo("/login")
    ensures user.Ok? && user.value.Some? && profile.Ok?
      && (profile.value.None? || profile.value.value.role != Some("admin"))
      ==> Gate(user, profile) == NavigateTo("/dashboard")
  {
  }

  /** `/dashboard` is not a route of the application root: a signed-in user turned away for
      not being an admin ends up at the catch-all, which sends them to `/` (for an admin it
      would be `/admin`). */
  lemma TurnedAwayLandsOnEmployeeHome(user: Outcome<Option<string>>, profile: Outcome<Option<Profile>>, role: Option<string>)
    requires Gate(user, profile) == NavigateTo("/dashboard")
    requires role != Some("admin")
    ensures Routing.Admit(true, role, Gate(user, profile).path) == Routing.Redirect("/")
  {
    Routing.DashboardIsNotARoute(true, role);
  }
}
