/**
 * The redirect decisions the pages take from the store's state: the
 * dashboard dispatcher and the guards of the therapist and patient
 * dashboards. Each is a total function of the state it reads.
 */
module Routing {
  import opened Wrappers
  import opened Store

  datatype Route = Login | TherapistDashboard | PatientDashboard

  /** The path pushed on the router for each destination. */
  function Path(r: Route): (path: string)
    ensures |path| > 1 && path[0] == '/'
    ensures r == Login <==> path == "/login"
  {
    match r
    case Login => "/login"
    case TherapistDashboard => "/therapist-dashboard"
    case PatientDashboard => "/patient-dashboard"
  }

  /** Distinct destinations are distinct paths. */
  lemma PathInjective(a: Route, b: Route)
    ensures Path(a) == Path(b) <==> a == b
  {
    if a != b {
      assert Path(a)[1] != Path(b)[1] || |Path(a)| != |Path(b)|;
    }
  }

  /** `user.role === 'therapist'`; a missing role is not the therapist role. */
  predicate IsTherapist(u: User) {
    u.role == Some("therapist")
  }

  /**
   * The effect of the dashboard page: nothing until the store is ready, then
   * exactly one of the login page, the therapist dashboard or the patient
   * dashboard.
   */
  function DashboardRedirect(user: Option<User>, loading: bool, initialized: bool): (r: Option<Route>)
    ensures r.None? <==> loading || !initialized
    ensures r == Some(Login) <==> !loading && initialized && user.None?
    ensures r == Some(TherapistDashboard) <==> !loading && initialized && user.Some? && IsTherapist(user.value)
    ensures r == Some(PatientDashboard) <==> !loading && initialized && user.Some? && !IsTherapist(user.value)
  {
    if !loading && initialized then
      if user.None? then Some(Login)
      else if IsTherapist(user.value) then Some(TherapistDashboard)
      else Some(PatientDashboard)
    else None
  }

  /** When the store is ready, the three destinations cover every state and exclude each other. */
  lemma DashboardRedirectExhaustive(user: Option<User>)
    ensures DashboardRedirect(user, false, true).Some?
    ensures DashboardRedirect(user, false, true) in {Some(Login), Some(TherapistDashboard), Some(PatientDashboard)}
  {
  }

  /** What the therapist dashboard's effect does. */
  datatype TherapistGuardAction = Wait | RedirectTo(target: Route) | LoadPatients

  /**
   * The therapist dashboard's guard: it waits only for `loading` (not for
   * `initialized`); then it sends anonymous visitors to the login page and
   * every non-therapist to the patient dashboard, and loads the patient list
   * for a therapist.
   */
  function TherapistGuard(user: Option<User>, loading: bool): (a: TherapistGuardAction)
    ensures a == Wait <==> loading
    ensures a == RedirectTo(Login) <==> !loading && user.None?
    ensures a == RedirectTo(PatientDashboard) <==> !loading && user.Some? && !IsTherapist(user.value)
    ensures a == LoadPatients <==> !loading && user.Some? && IsTherapist(user.value)
    ensures a != RedirectTo(TherapistDashboard)
  {
    if loading then Wait
    else if user.None? then RedirectTo(Login)
    else if !IsTherapist(user.value) then RedirectTo(PatientDashboard)
    else LoadPatients
  }

  /**
   * What the patient dashboard's effect does: the paths it pushes, in order,
   * and whether it loads the sessions and mood history.
   */
  datatype PatientGuardEffects = PatientGuardEffects(redirects: seq<Route>, loadData: bool)

  /**
   * The patient dashboard's guard is two independent checks followed by a
   * load that only looks at the user, so a therapist's data is requested
   * even while the page redirects away, and even while `loading` is true.
   */
  function PatientGuard(user: Option<User>, loading: bool): (e: PatientGuardEffects)
    ensures |e.redirects| <= 1
    ensures e.redirects == [Login] <==> !loading && user.None?
    ensures e.redirects == [TherapistDashboard] <==> !loading && user.Some? && IsTherapist(user.value)
    ensures e.redirects == [] <==> loading || (user.Some? && !IsTherapist(user.value))
    ensures e.loadData <==> user.Some?
  {
    var toLogin := if !loading && user.None? then [Login] else [];
    var toTherapist := if !loading && user.Some? && IsTherapist(user.value) then [TherapistDashboard] else [];
    assert [TherapistDashboard][0] != [Login][0];
    PatientGuardEffects(toLogin + toTherapist, user.Some?)
  }

  /** Whenever the dispatcher sends a ready user to a dashboard, that dashboard's guard keeps them there. */
  lemma DispatchAgreesWithGuards(user: Option<User>)
    ensures DashboardRedirect(user, false, true) == Some(TherapistDashboard) ==> TherapistGuard(user, false) == LoadPatients
    ensures DashboardRedirect(user, false, true) == Some(PatientDashboard) ==> PatientGuard(user, false).redirects == []
    ensures DashboardRedirect(user, false, true) == Some(Login) ==>
              TherapistGuard(user, false) == RedirectTo(Login) && PatientGuard(user, false).redirects == [Login]
  {
  }
}
