/** The landing page's redirect: on mount it reads the stored token and role;
    without a token it shows the public landing content, with one it keeps the
    loading view up and schedules a single navigation to the role's dashboard.
    Storage reads are parameters, the router is a log of the paths pushed, and
    the timer is the navigation it would perform when it fires. */
module Landing {
  import opened JsValues

  const AdminDashboard := "/admin/dashboard"
  const StudentDashboard := "/student/dashboard"

  /** The delay, in milliseconds, before the redirect fires. */
  const RedirectDelay := 500

  predicate IsDashboard(path: string)
  {
    path == AdminDashboard || path == StudentDashboard
  }

  /** `role === "admin" || role === "staff"` picks the admin dashboard; any
      other role, a missing one included, the student dashboard. */
  function DashboardFor(role: Option<string>): (path: string)
    ensures IsDashboard(path)
    ensures path == AdminDashboard <==> role == Some("admin") || role == Some("staff")
  {
    if role == Some("admin") || role == Some("staff") then AdminDashboard else StudentDashboard
  }

  /** The effect's decision. */
  datatype Decision = ShowLanding | RedirectAfter(delay: nat, path: string)

  function Decide(token: Option<string>, role: Option<string>): (d: Decision)
    ensures d == ShowLanding <==> !Truthy(token)
    ensures d.RedirectAfter? ==> d.delay == RedirectDelay && IsDashboard(d.path)
    ensures d.RedirectAfter? ==> (d.path == AdminDashboard <==> role == Some("admin") || role == Some("staff"))
  {
    if Truthy(token) then RedirectAfter(RedirectDelay, DashboardFor(role)) else ShowLanding
  }

  datatype Screen = LoadingScreen | LandingContent

  /** `if (isChecking) return <loading view/>`, else the landing content. */
  function Render(isChecking: bool): (s: Screen)
    ensures s == LoadingScreen <==> isChecking
  {
    if isChecking then LoadingScreen else LandingContent
  }

  class LandingPage {
    var isChecking: bool
    /** The navigation the pending `setTimeout` will perform, if one is pending. */
    var timer: Option<string>
    /** Every path passed to `router.push`, in order. */
    var navigations: seq<string>

    /** `useState(true)`: the loading view shows until the effect decides. */
    constructor ()
      ensures isChecking && timer == None && navigations == []
    {
      isChecking := true;
      timer := None;
      navigations := [];
    }

    /** The effect body. React runs the previous cleanup first, so no timer
      is pending when it starts. */
    method RunEffect(token: Option<string>, role: Option<string>)
      requires timer == None
      modifies this
      ensures navigations == old(navigations)
      ensures Truthy(token) ==> isChecking == old(isChecking) && timer == Some(DashboardFor(role))
      ensures !Truthy(token) ==> !isChecking && timer == None
    {
      match Decide(token, role)
      case RedirectAfter(_, path) =>
        timer := Some(path);
      case ShowLanding =>
        isChecking := false;
    }

    /** The timeout fires: the scheduled path is pushed, once. */
    method TimerFires()
      modifies this
      ensures isChecking == old(isChecking) && timer == None
      ensures navigations == old(navigations) + (if old(timer).Some? then [old(timer).value] else [])
    {
      if timer.Some? {
        navigations := navigations + [timer.value];
      }
      timer := None;
    }

    /** The effect's cleanup, `clearTimeout(timer)`: nothing is pushed. */
    method Cleanup()
      modifies this
      ensures isChecking == old(isChecking) && navigations == old(navigations) && timer == None
    {
      timer := None;
    }
  }

  /** A visit to the landing page: mount, run the effect, then either the
      delay elapses or the page is left first (the cleanup runs). It ends on
      the loading view exactly when a token is stored, and pushes at most one
      path: the role's dashboard, when a token is stored and the delay elapsed. */
  method Visit(token: Option<string>, role: Option<string>, leftEarly: bool)
    returns (screen: Screen, pushed: seq<string>)
    ensures screen == LoadingScreen <==> Truthy(token)
    ensures |pushed| <= 1
    ensures forall i :: 0 <= i < |pushed| ==> IsDashboard(pushed[i])
    ensures pushed == (if Truthy(token) && !leftEarly then [DashboardFor(role)] else [])
    ensures pushed != [] ==> (pushed[0] == AdminDashboard <==> role == Some("admin") || role == Some("staff"))
  {
    var page := new LandingPage();
    page.RunEffect(token, role);
    if leftEarly {
      page.Cleanup();
    } else {
      page.TimerFires();
    }
    screen := Render(page.isChecking);
    pushed := page.navigations;
  }
}
