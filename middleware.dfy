/** The dashboard gate run before every request, in its two variants: the
    root `middleware.ts`, which lets the framework's own `/_next` files through
    in development without looking up a session, and `pages/middleware.ts`,
    which always looks one up. A request either continues or is redirected to
    the home page '/'. */
module Middleware {
  import opened Common

  datatype Decision = Next | RedirectHome

  /** A signed-in session, reduced to the `role` entry of the user's metadata. */
  datatype Session = Session(role: Option<string>)

  /** What a middleware run did: its decision, and whether it asked for a session. */
  datatype Outcome = Outcome(decision: Decision, lookedUp: bool)

  /** The rule both variants apply once the session is known: a '/dashboard' path needs a
      session; under '/dashboard/patient' the role must be 'patient', under
      '/dashboard/doctor' it must be 'doctor'. Prefixes are plain text prefixes. */
  function Gate(path: string, session: Option<Session>): (d: Decision)
    ensures !StartsWith(path, "/dashboard") ==> d == Next
    ensures StartsWith(path, "/dashboard") && session.None? ==> d == RedirectHome
    ensures d == Next && StartsWith(path, "/dashboard/patient") ==> session == Some(Session(Some("patient")))
    ensures d == Next && StartsWith(path, "/dashboard/doctor") ==> session == Some(Session(Some("doctor")))
  {
    if StartsWith(path, "/dashboard") then
      if session.None? then RedirectHome
      else if StartsWith(path, "/dashboard/patient") && session.value.role != Some("patient") then RedirectHome
      else if StartsWith(path, "/dashboard/doctor") && session.value.role != Some("doctor") then RedirectHome
      else Next
    else Next
  }

  /** `middleware.ts`: in development a '/_next' path continues before any session lookup. */
  function RootMiddleware(development: bool, path: string, session: Option<Session>): (o: Outcome)
    ensures o.lookedUp <==> !(development && StartsWith(path, "/_next"))
    ensures o.lookedUp ==> o.decision == Gate(path, session)
    ensures !o.lookedUp ==> o.decision == Next
  {
    if development && StartsWith(path, "/_next") then Outcome(Next, false)
    else Outcome(Gate(path, session), true)
  }

  /** `pages/middleware.ts`: always looks up the session, then applies the gate. */
  function PagesMiddleware(path: string, session: Option<Session>): (o: Outcome)
    ensures o.lookedUp
  {
    Outcome(Gate(path, session), true)
  }

  /** A '/_next' path is never a '/dashboard' path. */
  lemma NextPathsAreNotDashboard(path: string)
    requires StartsWith(path, "/_next")
    ensures !StartsWith(path, "/dashboard")
  {
    assert path[1] == '_';
    assert "/dashboard"[1] == 'd';
  }

  /** The two variants decide alike on every request; they differ only in whether a
      development '/_next' request looks up a session. */
  lemma VariantsAgree(development: bool, path: string, session: Option<Session>)
    ensures RootMiddleware(development, path, session).decision == PagesMiddleware(path, session).decision
  {
    if development && StartsWith(path, "/_next") {
      NextPathsAreNotDashboard(path);
    }
  }

  /** '/dashboard/doctor-appointments' starts with '/dashboard/doctor', so only a doctor reaches it. */
  lemma DoctorAppointmentsNeedsDoctor(session: Option<Session>)
    ensures Gate("/dashboard/doctor-appointments", session) == Next <==> session == Some(Session(Some("doctor")))
  {
    var p := "/dashboard/doctor-appointments";
    assert p[..|"/dashboard"|] == "/dashboard";
    assert p[..|"/dashboard/doctor"|] == "/dashboard/doctor";
    assert p[..|"/dashboard/patient"|] != "/dashboard/patient" by {
      assert p[11] == 'd';
    }
  }

  /** A patient reaches every '/dashboard/patient' path and a doctor every '/dashboard/doctor'
      path: the two prefixes differ at their twelfth character, so no path has both. */
  lemma RolesReachTheirOwnArea(path: string, role: string)
    requires role == "patient" || role == "doctor"
    requires StartsWith(path, "/dashboard/" + role)
    ensures Gate(path, Some(Session(Some(role)))) == Next
  {
    assert path[..|"/dashboard"|] == ("/dashboard/" + role)[..|"/dashboard"|];
    assert path[11] == role[0];
    if StartsWith(path, "/dashboard/patient") { assert path[11] == 'p'; }
    if StartsWith(path, "/dashboard/doctor") { assert path[11] == 'd'; }
  }

  /** A dashboard path under neither role prefix, such as '/dashboard/appointments', needs only a session. */
  lemma OtherDashboardPathsNeedSession(path: string, session: Option<Session>)
    requires StartsWith(path, "/dashboard")
    requires !StartsWith(path, "/dashboard/patient") && !StartsWith(path, "/dashboard/doctor")
    ensures Gate(path, session) == Next <==> session.Some?
  {
  }

  /** '/dashboard/appointments' is such a path. */
  lemma AppointmentsPageNeedsSession(session: Option<Session>)
    ensures Gate("/dashboard/appointments", session) == Next <==> session.Some?
  {
    var p := "/dashboard/appointments";
    assert p[..|"/dashboard"|] == "/dashboard";
    assert p[11] == 'a';
    assert p[..|"/dashboard/patient"|] != "/dashboard/patient" by {
      assert p[..|"/dashboard/patient"|][11] != "/dashboard/patient"[11];
    }
    assert p[..|"/dashboard/doctor"|] != "/dashboard/doctor" by {
      assert p[..|"/dashboard/doctor"|][11] != "/dashboard/doctor"[11];
    }
    OtherDashboardPathsNeedSession(p, session);
  }
}
