/** Where the login and registration pages send a user after a successful sign-in. */
module Navigation {

  /** The `switch (role)` of both auth pages. */
  function DashboardFor(role: string): (route: string)
    ensures role == "admin" ==> route == "/admin/dashboard"
    ensures role == "doctor" ==> route == "/doctor/dashboard"
    ensures role == "patient" ==> route == "/patient/dashboard"
    ensures route == "/" <==> role !in {"admin", "doctor", "patient"}
  {
    match role
    case "admin" => "/admin/dashboard"
    case "doctor" => "/doctor/dashboard"
    case "patient" => "/patient/dashboard"
    case _ => "/"
  }
}
